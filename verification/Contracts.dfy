/**
 The same-major contract compatibility checker (kernel/tools/contract_compat.py) and what its verdict
 means for the JSON values that travel between an old client and a new provider.

 A schema that is a JSON object is a Node; any other schema value is a Form. The four structural keywords
 are fields of a Node, every other keyword stays in `keywords`, `type` among them.
 */
module Contracts {
  import opened Wrappers

  datatype Json =
    | Null
    | Bool(b: bool)
    | Int(i: int)
    | Float(r: real)
    | Str(s: string)
    | Arr(elems: seq<Json>)
    | Obj(fields: map<string, Json>)

  datatype Items = NoItems | Items(each: Schema)

  datatype Properties = NoProperties | Properties(fields: map<string, Schema>)

  datatype Schema =
    | Form(value: Json)
    | Node(keywords: map<string, Json>, required: set<string>, additional: Option<bool>,
           items: Items, properties: Properties)

  datatype Mode = Request | Response

  // ----- The checker's tables -----

  const ANNOTATIONS: set<string> :=
    {"title", "description", "default", "examples", "$comment", "deprecated", "readOnly", "writeOnly"}

  const COMPOSED: set<string> := {"oneOf", "anyOf", "allOf", "not", "enum", "const", "format", "pattern", "multipleOf"}

  const BOUNDS: set<string> :=
    {"minimum", "exclusiveMinimum", "maximum", "exclusiveMaximum", "minLength", "maxLength", "minItems", "maxItems"}

  /** The keywords that the checker treats one by one; any other that is no annotation has to stay as it was. */
  const HANDLED: set<string> :=
    {"type", "properties", "required", "additionalProperties", "items",
     "oneOf", "anyOf", "allOf", "not", "enum", "const", "format", "pattern", "multipleOf",
     "minimum", "exclusiveMinimum", "maximum", "exclusiveMaximum", "minLength", "maxLength", "minItems", "maxItems"}

  // ----- Keywords -----

  /** JSON Schema's annotations, and the structural keywords that are fields of a Node: alone they restrict nothing. */
  predicate Silent(k: string) {
    k in {"title", "description", "default", "examples", "$comment", "deprecated", "readOnly", "writeOnly",
          "properties", "required", "additionalProperties", "items"}
  }

  const EMPTY := Node(map[], {}, None, NoItems, NoProperties)

  /** `schema.get(k)`: an absent keyword and one whose value is JSON null read alike. */
  function Keyword(s: Schema, k: string): Json
    requires s.Node?
  {
    if k in s.keywords then s.keywords[k] else Null
  }

  function AsNumber(j: Json): Option<real> {
    match j
    case Bool(b) => Some(if b then 1.0 else 0.0)
    case Int(i) => Some(i as real)
    case Float(r) => Some(r)
    case _ => None
  }

  /** Python's `==`, under which 1, 1.0 and true are equal. */
  predicate PyEqual(a: Json, b: Json) {
    if AsNumber(a).Some? && AsNumber(b).Some? then AsNumber(a) == AsNumber(b) else a == b
  }

  /** How the checker compares one keyword: bounds with `==`, everything else by canonical text. */
  predicate SameKeyword(k: string, a: Json, b: Json) {
    if k in BOUNDS then PyEqual(a, b) else a == b
  }

  ghost predicate SameKeywords(prev: Schema, next: Schema)
    requires prev.Node? && next.Node?
  {
    forall k | k in prev.keywords.Keys + next.keywords.Keys && !Silent(k) ::
      SameKeyword(k, Keyword(prev, k), Keyword(next, k))
  }

  predicate IsType(s: Schema, t: string)
    requires s.Node?
  {
    Keyword(s, "type") == Str(t)
  }

  predicate Open(s: Schema)
    requires s.Node?
  {
    s.additional != Some(false)
  }

  function ItemsOf(s: Schema): Schema
    requires s.Node?
  {
    if s.items.Items? then s.items.each else EMPTY
  }

  function Fields(s: Schema): map<string, Schema>
    requires s.Node?
  {
    if s.properties.Properties? then s.properties.fields else map[]
  }

  predicate ComparesItems(prev: Schema, next: Schema)
    requires prev.Node? && next.Node?
  {
    IsType(prev, "array") || IsType(next, "array") || prev.items.Items? || next.items.Items?
  }

  predicate ComparesFields(prev: Schema, next: Schema)
    requires prev.Node? && next.Node?
  {
    IsType(prev, "object") || IsType(next, "object") || prev.properties.Properties? || next.properties.Properties?
  }

  // ----- Height: the termination measure of the recursion over two schemas -----

  ghost function Height(s: Schema): nat {
    match s
    case Form(_) => 0
    case Node(keywords, _, _, items, properties) =>
      1 + (if keywords == map[] then 0 else 1)
        + (if items.Items? then Height(items.each) else 0)
        + (if properties.Properties? then TotalHeight(properties, properties.fields.Keys) else 0)
  }

  ghost function TotalHeight(p: Properties, names: set<string>): nat
    requires p.Properties? && names <= p.fields.Keys
    decreases p, |names|
  {
    if names == {} then 0
    else
      var n :| n in names;
      Height(p.fields[n]) + TotalHeight(p, names - {n})
  }

  lemma {:induction false} FieldHeight(p: Properties, names: set<string>, name: string)
    requires p.Properties? && names <= p.fields.Keys && name in names
    ensures Height(p.fields[name]) <= TotalHeight(p, names)
    decreases |names|
  {
    var n :| n in names && TotalHeight(p, names) == Height(p.fields[n]) + TotalHeight(p, names - {n});
    assert Height(p.fields[n]) >= 0 && TotalHeight(p, names - {n}) >= 0;
    if n != name {
      FieldHeight(p, names - {n}, name);
    }
  }

  lemma FieldIsLower(s: Schema, name: string)
    requires s.Node? && name in Fields(s)
    ensures Height(Fields(s)[name]) < Height(s)
  {
    FieldHeight(s.properties, s.properties.fields.Keys, name);
  }

  lemma ItemsAreLower(prev: Schema, next: Schema)
    requires prev.Node? && next.Node? && ComparesItems(prev, next)
    ensures Height(ItemsOf(prev)) + Height(ItemsOf(next)) < Height(prev) + Height(next)
  {
    assert IsType(prev, "array") ==> "type" in prev.keywords;
    assert IsType(next, "array") ==> "type" in next.keywords;
  }

  // ----- The verdict -----

  ghost predicate RequiredOk(prev: Schema, next: Schema, mode: Mode)
    requires prev.Node? && next.Node?
  {
    if mode.Request? then next.required <= prev.required else prev.required == next.required
  }

  ghost predicate Compatible(prev: Schema, next: Schema, mode: Mode)
    decreases Height(prev) + Height(next)
  {
    if !prev.Node? || !next.Node? then
      prev == next
    else
      && SameKeywords(prev, next)
      && Open(prev) == Open(next)
      && (ComparesItems(prev, next) ==>
            (ItemsAreLower(prev, next); Compatible(ItemsOf(prev), ItemsOf(next), mode)))
      && (ComparesFields(prev, next) ==>
            && RequiredOk(prev, next, mode)
            && (forall name | name in Fields(prev) ::
                  name in Fields(next) &&
                  (FieldIsLower(prev, name); FieldIsLower(next, name);
                   Compatible(Fields(prev)[name], Fields(next)[name], mode)))
            && (mode.Response? && !Open(prev) ==> Fields(next).Keys <= Fields(prev).Keys))
  }

  // ----- What a schema means -----

  /** What the keywords outside the structural four require of a value; every result holds for all of these. */
  datatype Meaning = Meaning(keyword: (string, Json, Json) -> bool, form: (Json, Json) -> bool)

  predicate IsWhole(j: Json, i: int) {
    j == Int(i) || j == Float(i as real) || (i == 0 && j == Bool(false)) || (i == 1 && j == Bool(true))
  }

  /** The same value, or two spellings of one whole number. */
  ghost predicate OneNumber(a: Json, b: Json) {
    a == b || exists i: int :: IsWhole(a, i) && IsWhole(b, i)
  }

  /**
   * What is assumed of the keywords: the eight annotations restrict nothing, nor do the structural names by themselves,
   * and two spellings of one number bound the same values. Every other keyword may restrict values in any way.
   */
  ghost predicate Standard(I: Meaning) {
    && (forall k: string, a: Json, v: Json |
          k in {"title", "description", "default", "examples", "$comment", "deprecated", "readOnly", "writeOnly",
                "properties", "required", "additionalProperties", "items"} ::
          I.keyword(k, a, v))
    && (forall k: string, a: Json, b: Json, v: Json |
          k in {"minimum", "exclusiveMinimum", "maximum", "exclusiveMaximum", "minLength", "maxLength", "minItems", "maxItems"}
          && OneNumber(a, b) && I.keyword(k, a, v) ::
          I.keyword(k, b, v))
  }

  ghost predicate Accepts(I: Meaning, s: Schema, v: Json) {
    match s
    case Form(value) => I.form(value, v)
    case Node(keywords, required, _, items, properties) =>
      && (forall k | k in keywords :: I.keyword(k, keywords[k], v))
      && (v.Arr? && items.Items? ==> forall i | 0 <= i < |v.elems| :: Accepts(I, items.each, v.elems[i]))
      && (v.Obj? ==>
            && required <= v.fields.Keys
            && (Open(s) || v.fields.Keys <= Fields(s).Keys)
            && (properties.Properties? ==>
                  forall name | name in properties.fields && name in v.fields ::
                    Accepts(I, properties.fields[name], v.fields[name])))
  }

  /** No keyword at any depth has the JSON value null, which the checker cannot tell from an absent one. */
  ghost predicate NullFree(s: Schema) {
    s.Node? ==>
      && (forall k | k in s.keywords && !Silent(k) :: s.keywords[k] != Null)
      && (s.items.Items? ==> NullFree(s.items.each))
      && (s.properties.Properties? ==>
            forall name | name in s.properties.fields :: NullFree(s.properties.fields[name]))
  }

  /** `required` appears only where the checker looks at it: type exactly "object", or `properties` present. */
  ghost predicate RequiredSeen(s: Schema) {
    s.Node? ==>
      && (s.required == {} || IsType(s, "object") || s.properties.Properties?)
      && (s.items.Items? ==> RequiredSeen(s.items.each))
      && (s.properties.Properties? ==>
            forall name | name in s.properties.fields :: RequiredSeen(s.properties.fields[name]))
  }

  ghost predicate Plain(s: Schema) {
    NullFree(s) && RequiredSeen(s)
  }

  /** Whether a `type` keyword with value `t` leaves room for JSON values of kind `kind`. */
  predicate Permits(t: Json, kind: string) {
    match t
    case Str(name) => name == kind
    case Arr(names) => Str(kind) in names
    case _ => true
  }

  ghost predicate ReadsTypes(I: Meaning) {
    forall t: Json, v: Json :: I.keyword("type", t, v) ==>
      (v.Obj? ==> Permits(t, "object")) && (v.Arr? ==> Permits(t, "array"))
  }

  /** `additionalProperties` is false throughout: wherever `s` can meet an object it refuses undeclared properties. */
  ghost predicate Closed(s: Schema) {
    s.Node? &&
    (Permits(Keyword(s, "type"), "array") ==> s.items.Items? && Closed(s.items.each)) &&
    (Permits(Keyword(s, "type"), "object") ==>
       !Open(s) &&
       (s.properties.Properties? ==>
          forall name | name in s.properties.fields :: Closed(s.properties.fields[name])))
  }

  /** Every property that `next` adds, at any depth, is absent from `v` or has a value its own schema accepts. */
  ghost predicate AddedAccepted(I: Meaning, prev: Schema, next: Schema, v: Json)
    decreases v
  {
    prev.Node? && next.Node? ==>
      && (v.Arr? ==> forall i | 0 <= i < |v.elems| :: AddedAccepted(I, ItemsOf(prev), ItemsOf(next), v.elems[i]))
      && (v.Obj? ==> forall name | name in v.fields && name in Fields(next) ::
            if name in Fields(prev)
            then AddedAccepted(I, Fields(prev)[name], Fields(next)[name], v.fields[name])
            else Accepts(I, Fields(next)[name], v.fields[name]))
  }

  /**
   * The two kinds of constraint of `to` that the checker does not see hold of `v`: a keyword with value null
   * that `from` lacks, and a `required` list at a node where the field branch is skipped.
   */
  ghost predicate UnseenHold(I: Meaning, from: Schema, to: Schema, v: Json)
    decreases v
  {
    from.Node? && to.Node? ==>
      && (forall k | k in to.keywords && !Silent(k) && k !in from.keywords && to.keywords[k] == Null ::
            I.keyword(k, Null, v))
      && (v.Arr? ==> forall i | 0 <= i < |v.elems| :: UnseenHold(I, ItemsOf(from), ItemsOf(to), v.elems[i]))
      && (v.Obj? ==>
            && (!ComparesFields(from, to) ==> to.required <= v.fields.Keys)
            && (forall name | name in v.fields && name in Fields(from) && name in Fields(to) ::
                  UnseenHold(I, Fields(from)[name], Fields(to)[name], v.fields[name])))
  }

  /** `v` uses, at every depth that `s` describes, only properties `s` declares. */
  ghost predicate Declared(s: Schema, v: Json)
    decreases v
  {
    s.Node? ==>
      && (v.Arr? ==> forall i | 0 <= i < |v.elems| :: Declared(ItemsOf(s), v.elems[i]))
      && (v.Obj? ==>
            v.fields.Keys <= Fields(s).Keys &&
            forall name | name in v.fields :: Declared(Fields(s)[name], v.fields[name]))
  }

  // ----- Keywords -----

  /** Where the keywords of `from` hold, those of `to` hold exactly when the null keywords `from` lacks do. */
  lemma KeywordsCarry(I: Meaning, from: Schema, to: Schema, v: Json)
    requires Standard(I) && from.Node? && to.Node? && SameKeywords(from, to)
    requires forall k | k in from.keywords :: I.keyword(k, from.keywords[k], v)
    ensures (forall k | k in to.keywords :: I.keyword(k, to.keywords[k], v)) <==>
            (forall k | k in to.keywords && !Silent(k) && k !in from.keywords && to.keywords[k] == Null ::
               I.keyword(k, Null, v))
  {
    forall k | k in to.keywords && (Silent(k) || k in from.keywords || to.keywords[k] != Null)
      ensures I.keyword(k, to.keywords[k], v)
    {
      if !Silent(k) {
        assert k in from.keywords.Keys + to.keywords.Keys;
        assert SameKeyword(k, Keyword(from, k), Keyword(to, k));
        assert k in from.keywords;
        if k in BOUNDS {
          EqualIsOneNumber(from.keywords[k], to.keywords[k]);
        }
      }
    }
  }

  lemma EqualIsOneNumber(a: Json, b: Json)
    ensures PyEqual(a, b) <==> OneNumber(a, b)
  {
    if a != b && AsNumber(a).Some? && AsNumber(a) == AsNumber(b) {
      match a {
        case Bool(x) => assert IsWhole(a, if x then 1 else 0) && IsWhole(b, if x then 1 else 0);
        case Int(i) => assert IsWhole(a, i) && IsWhole(b, i);
        case Float(r) =>
          var i := if b.Int? then b.i else if b.b then 1 else 0;
          assert IsWhole(a, i) && IsWhole(b, i);
      }
    }
  }

  lemma SameKeywordsSymmetric(a: Schema, b: Schema)
    requires a.Node? && b.Node? && SameKeywords(a, b)
    ensures SameKeywords(b, a)
  {
    forall k | k in b.keywords.Keys + a.keywords.Keys && !Silent(k)
      ensures SameKeyword(k, Keyword(b, k), Keyword(a, k))
    {
      assert k in a.keywords.Keys + b.keywords.Keys;
    }
  }

  lemma EmptyAcceptsAll(I: Meaning, v: Json)
    ensures Accepts(I, EMPTY, v)
  {
  }

  lemma {:induction false} NothingUnseenInEmpty(I: Meaning, from: Schema, v: Json)
    ensures UnseenHold(I, from, EMPTY, v)
    decreases v
  {
    if from.Node? && v.Arr? {
      forall i | 0 <= i < |v.elems| ensures UnseenHold(I, ItemsOf(from), EMPTY, v.elems[i]) {
        NothingUnseenInEmpty(I, ItemsOf(from), v.elems[i]);
      }
    }
  }

  /** A plain schema has no constraint the checker cannot see. */
  lemma {:induction false} PlainIsSeen(I: Meaning, from: Schema, to: Schema, v: Json)
    requires Plain(to)
    ensures UnseenHold(I, from, to, v)
    decreases v
  {
    if from.Node? && to.Node? {
      if v.Arr? {
        forall i | 0 <= i < |v.elems| ensures UnseenHold(I, ItemsOf(from), ItemsOf(to), v.elems[i]) {
          if to.items.Items? {
            PlainIsSeen(I, ItemsOf(from), ItemsOf(to), v.elems[i]);
          } else {
            NothingUnseenInEmpty(I, ItemsOf(from), v.elems[i]);
          }
        }
      }
      if v.Obj? {
        forall name | name in v.fields && name in Fields(from) && name in Fields(to)
          ensures UnseenHold(I, Fields(from)[name], Fields(to)[name], v.fields[name])
        {
          PlainIsSeen(I, Fields(from)[name], Fields(to)[name], v.fields[name]);
        }
      }
    }
  }

  // ----- Response mode: what a new provider sends, an old client can read -----

  /** Of a value the new schema accepts, the old one accepts exactly those where the unseen constraints hold. */
  lemma {:induction false} ResponseExact(I: Meaning, prev: Schema, next: Schema, v: Json)
    requires Standard(I)
    requires Compatible(prev, next, Response)
    requires Accepts(I, next, v)
    ensures Accepts(I, prev, v) <==> UnseenHold(I, next, prev, v)
    decreases v
  {
    if prev.Node? && next.Node? {
      SameKeywordsSymmetric(prev, next);
      KeywordsCarry(I, next, prev, v);
      if v.Arr? {
        forall i | 0 <= i < |v.elems|
          ensures Accepts(I, ItemsOf(prev), v.elems[i]) <==> UnseenHold(I, ItemsOf(next), ItemsOf(prev), v.elems[i])
        {
          EmptyAcceptsAll(I, v.elems[i]);
          if ComparesItems(prev, next) {
            ResponseExact(I, ItemsOf(prev), ItemsOf(next), v.elems[i]);
          } else {
            NothingUnseenInEmpty(I, EMPTY, v.elems[i]);
          }
        }
        assert prev.items.Items? ==> ItemsOf(prev) == prev.items.each;
        if prev.items.NoItems? {
          forall i | 0 <= i < |v.elems| ensures UnseenHold(I, ItemsOf(next), ItemsOf(prev), v.elems[i]) {
            NothingUnseenInEmpty(I, ItemsOf(next), v.elems[i]);
          }
        }
      }
      if v.Obj? {
        forall name | name in Fields(prev) && name in v.fields
          ensures name in Fields(next)
          ensures Accepts(I, Fields(prev)[name], v.fields[name]) <==>
                  UnseenHold(I, Fields(next)[name], Fields(prev)[name], v.fields[name])
        {
          ResponseExact(I, Fields(prev)[name], Fields(next)[name], v.fields[name]);
        }
      }
    }
  }

  lemma ResponseSound(I: Meaning, prev: Schema, next: Schema, v: Json)
    requires Standard(I) && Plain(prev)
    requires Compatible(prev, next, Response)
    requires Accepts(I, next, v)
    ensures Accepts(I, prev, v)
  {
    ResponseExact(I, prev, next, v);
    PlainIsSeen(I, next, prev, v);
  }

  // ----- Request mode: what an old client sends, a new provider accepts -----

  /** Of a request the old schema accepts, the new one accepts exactly those whose added and unseen parts are fine. */
  lemma {:induction false} RequestExact(I: Meaning, prev: Schema, next: Schema, v: Json)
    requires Standard(I)
    requires Compatible(prev, next, Request)
    requires Accepts(I, prev, v)
    ensures Accepts(I, next, v) <==> AddedAccepted(I, prev, next, v) && UnseenHold(I, prev, next, v)
    decreases v
  {
    hide Standard, SameKeywords, Silent, IsType;
    if prev.Node? && next.Node? {
      KeywordsCarry(I, prev, next, v);
      if v.Arr? {
        forall i | 0 <= i < |v.elems|
          ensures Accepts(I, ItemsOf(next), v.elems[i]) <==>
                  AddedAccepted(I, ItemsOf(prev), ItemsOf(next), v.elems[i]) &&
                  UnseenHold(I, ItemsOf(prev), ItemsOf(next), v.elems[i])
        {
          EmptyAcceptsAll(I, v.elems[i]);
          if ComparesItems(prev, next) {
            RequestExact(I, ItemsOf(prev), ItemsOf(next), v.elems[i]);
          } else {
            NothingAddedToEmpty(I, v.elems[i]);
            NothingUnseenInEmpty(I, EMPTY, v.elems[i]);
          }
        }
      }
      if v.Obj? {
        forall name | name in v.fields && name in Fields(prev)
          ensures ComparesFields(prev, next) && name in Fields(next)
          ensures Accepts(I, Fields(next)[name], v.fields[name]) <==>
                  AddedAccepted(I, Fields(prev)[name], Fields(next)[name], v.fields[name]) &&
                  UnseenHold(I, Fields(prev)[name], Fields(next)[name], v.fields[name])
        {
          RequestExact(I, Fields(prev)[name], Fields(next)[name], v.fields[name]);
        }
      }
    }
  }

  lemma {:induction false} NothingAddedToEmpty(I: Meaning, v: Json)
    ensures AddedAccepted(I, EMPTY, EMPTY, v)
    decreases v
  {
    if v.Arr? {
      forall i | 0 <= i < |v.elems| ensures AddedAccepted(I, EMPTY, EMPTY, v.elems[i]) {
        NothingAddedToEmpty(I, v.elems[i]);
      }
    }
  }

  lemma {:induction false} DeclaredAddsNothing(I: Meaning, prev: Schema, next: Schema, v: Json)
    requires Compatible(prev, next, Request) && Declared(prev, v)
    ensures AddedAccepted(I, prev, next, v)
    decreases v
  {
    if prev.Node? && next.Node? {
      if v.Arr? {
        forall i | 0 <= i < |v.elems|
          ensures AddedAccepted(I, ItemsOf(prev), ItemsOf(next), v.elems[i])
        {
          if ComparesItems(prev, next) {
            DeclaredAddsNothing(I, ItemsOf(prev), ItemsOf(next), v.elems[i]);
          } else {
            NothingAddedToEmpty(I, v.elems[i]);
          }
        }
      }
      if v.Obj? {
        forall name | name in v.fields && name in Fields(next)
          ensures name in Fields(prev) && AddedAccepted(I, Fields(prev)[name], Fields(next)[name], v.fields[name])
        {
          DeclaredAddsNothing(I, Fields(prev)[name], Fields(next)[name], v.fields[name]);
        }
      }
    }
  }

  lemma RequestSound(I: Meaning, prev: Schema, next: Schema, v: Json)
    requires Standard(I) && Plain(next)
    requires Compatible(prev, next, Request)
    requires Accepts(I, prev, v) && Declared(prev, v)
    ensures Accepts(I, next, v)
  {
    RequestExact(I, prev, next, v);
    PlainIsSeen(I, prev, next, v);
    DeclaredAddsNothing(I, prev, next, v);
  }

  lemma {:induction false} ClosedAddsNothing(I: Meaning, prev: Schema, next: Schema, v: Json)
    requires ReadsTypes(I) && Compatible(prev, next, Request) && Closed(prev) && Accepts(I, prev, v)
    ensures AddedAccepted(I, prev, next, v)
    decreases v
  {
    if next.Node? {
      if "type" in prev.keywords {
        assert I.keyword("type", prev.keywords["type"], v);
      }
      if v.Arr? {
        forall i | 0 <= i < |v.elems|
          ensures AddedAccepted(I, ItemsOf(prev), ItemsOf(next), v.elems[i])
        {
          ClosedAddsNothing(I, ItemsOf(prev), ItemsOf(next), v.elems[i]);
        }
      }
      if v.Obj? {
        forall name | name in v.fields && name in Fields(next)
          ensures name in Fields(prev) && AddedAccepted(I, Fields(prev)[name], Fields(next)[name], v.fields[name])
        {
          ClosedAddsNothing(I, Fields(prev)[name], Fields(next)[name], v.fields[name]);
        }
      }
    }
  }

  lemma {:induction false} ClosedRequestSound(I: Meaning, prev: Schema, next: Schema, v: Json)
    requires Standard(I) && ReadsTypes(I) && Plain(next)
    requires Compatible(prev, next, Request)
    requires Closed(prev) && Accepts(I, prev, v)
    ensures Accepts(I, next, v)
  {
    RequestExact(I, prev, next, v);
    PlainIsSeen(I, prev, next, v);
    ClosedAddsNothing(I, prev, next, v);
  }

  // ----- A chain of accepted versions is accepted end to end -----

  lemma {:induction false} CompatibleReflexive(s: Schema, mode: Mode)
    ensures Compatible(s, s, mode)
    decreases Height(s)
  {
    if s.Node? {
      if ComparesItems(s, s) {
        ItemsAreLower(s, s);
        CompatibleReflexive(ItemsOf(s), mode);
      }
      forall name | name in Fields(s)
        ensures Compatible(Fields(s)[name], Fields(s)[name], mode)
      {
        FieldIsLower(s, name);
        CompatibleReflexive(Fields(s)[name], mode);
      }
    }
  }

  lemma SameKeywordsTransitive(a: Schema, b: Schema, c: Schema)
    requires a.Node? && b.Node? && c.Node? && SameKeywords(a, b) && SameKeywords(b, c)
    ensures SameKeywords(a, c)
  {
    forall k | k in a.keywords.Keys + c.keywords.Keys && !Silent(k)
      ensures SameKeyword(k, Keyword(a, k), Keyword(c, k))
    {
      if k in b.keywords {
        assert k in a.keywords.Keys + b.keywords.Keys && k in b.keywords.Keys + c.keywords.Keys;
      } else {
        assert k in a.keywords ==> k in a.keywords.Keys + b.keywords.Keys;
        assert k in c.keywords ==> k in b.keywords.Keys + c.keywords.Keys;
      }
    }
  }

  lemma {:induction false} CompatibleTransitive(a: Schema, b: Schema, c: Schema, mode: Mode)
    requires RequiredSeen(a) && RequiredSeen(b) && RequiredSeen(c)
    requires Compatible(a, b, mode) && Compatible(b, c, mode)
    ensures Compatible(a, c, mode)
    decreases Height(a) + Height(b) + Height(c)
  {
    if a.Node? && b.Node? && c.Node? {
      SameKeywordsTransitive(a, b, c);
      if ComparesItems(a, c) {
        ItemsAreLower(a, c);
        ItemsTransitive(a, b, c, mode);
      }
      if ComparesFields(a, c) {
        forall name | name in Fields(a)
          ensures name in Fields(c) && Compatible(Fields(a)[name], Fields(c)[name], mode)
        {
          FieldIsLower(a, name);
          assert name in Fields(b);
          FieldIsLower(b, name);
          assert name in Fields(c);
          FieldIsLower(c, name);
          CompatibleTransitive(Fields(a)[name], Fields(b)[name], Fields(c)[name], mode);
        }
      }
    }
  }

  lemma {:induction false} ItemsTransitive(a: Schema, b: Schema, c: Schema, mode: Mode)
    requires a.Node? && b.Node? && c.Node? && ComparesItems(a, c)
    requires RequiredSeen(a) && RequiredSeen(b) && RequiredSeen(c)
    requires Compatible(a, b, mode) && Compatible(b, c, mode)
    ensures Compatible(ItemsOf(a), ItemsOf(c), mode)
    decreases Height(a) + Height(b) + Height(c), 0
  {
    if !ComparesItems(a, b) {
      assert ItemsOf(a) == ItemsOf(b);
    } else if !ComparesItems(b, c) {
      assert ItemsOf(b) == ItemsOf(c);
    } else {
      ItemsAreLower(a, b);
      ItemsAreLower(b, c);
      ItemsAreLower(a, c);
      CompatibleTransitive(ItemsOf(a), ItemsOf(b), ItemsOf(c), mode);
    }
  }

  /** The required sets agree wherever the field branch compares them. */
  ghost predicate RequiredAgree(prev: Schema, next: Schema, mode: Mode)
    decreases Height(prev) + Height(next)
  {
    prev.Node? && next.Node? ==>
      && (ComparesFields(prev, next) ==> RequiredOk(prev, next, mode))
      && (ComparesItems(prev, next) ==>
            (ItemsAreLower(prev, next); RequiredAgree(ItemsOf(prev), ItemsOf(next), mode)))
      && (forall name | name in Fields(prev) && name in Fields(next) ::
            (FieldIsLower(prev, name); FieldIsLower(next, name);
             RequiredAgree(Fields(prev)[name], Fields(next)[name], mode)))
  }

  /** A chain of two accepted versions is accepted end to end exactly when the outer required sets agree. */
  lemma {:induction false} ChainExact(a: Schema, b: Schema, c: Schema, mode: Mode)
    requires Compatible(a, b, mode) && Compatible(b, c, mode)
    ensures Compatible(a, c, mode) <==> RequiredAgree(a, c, mode)
    decreases Height(a) + Height(b) + Height(c)
  {
    if a.Node? && b.Node? && c.Node? {
      SameKeywordsTransitive(a, b, c);
      if ComparesItems(a, c) {
        ItemsAreLower(a, c);
        ItemsChain(a, b, c, mode);
      }
      forall name | name in Fields(a)
        ensures name in Fields(c)
        ensures Compatible(Fields(a)[name], Fields(c)[name], mode) <==>
                RequiredAgree(Fields(a)[name], Fields(c)[name], mode)
      {
        FieldIsLower(a, name);
        assert name in Fields(b);
        FieldIsLower(b, name);
        assert name in Fields(c);
        FieldIsLower(c, name);
        ChainExact(Fields(a)[name], Fields(b)[name], Fields(c)[name], mode);
      }
    }
  }

  lemma {:induction false} ItemsChain(a: Schema, b: Schema, c: Schema, mode: Mode)
    requires a.Node? && b.Node? && c.Node? && ComparesItems(a, c)
    requires Compatible(a, b, mode) && Compatible(b, c, mode)
    ensures Compatible(ItemsOf(a), ItemsOf(c), mode) <==> RequiredAgree(ItemsOf(a), ItemsOf(c), mode)
    decreases Height(a) + Height(b) + Height(c), 0
  {
    ItemsAreLower(a, c);
    if !ComparesItems(a, b) {
      CompatibleReflexive(EMPTY, mode);
      ItemsAreLower(b, c);
      ChainExact(EMPTY, EMPTY, ItemsOf(c), mode);
    } else if !ComparesItems(b, c) {
      CompatibleReflexive(EMPTY, mode);
      ItemsAreLower(a, b);
      ChainExact(ItemsOf(a), EMPTY, EMPTY, mode);
    } else {
      ItemsAreLower(a, b);
      ItemsAreLower(b, c);
      ChainExact(ItemsOf(a), ItemsOf(b), ItemsOf(c), mode);
    }
  }

  // ----- Concrete inputs on which the checker's verdict misleads -----

  ghost predicate ReadsConst(I: Meaning) {
    forall a: Json, v: Json :: I.keyword("const", a, v) <==> v == a
  }

  /**
   * Adding or dropping `const: null` is never reported. The keyword only takes values away, and it takes none exactly
   * when the schema without it accepts nothing but null: only then are old requests still accepted after it was added,
   * and new responses still read by old clients after it was dropped.
   */
  lemma NullConstSlips(I: Meaning, s: Schema, mode: Mode)
    requires Standard(I) && ReadsConst(I) && s.Node? && "const" !in s.keywords && Plain(s)
    ensures var t := s.(keywords := s.keywords["const" := Null]);
            && Compatible(s, t, mode) && Compatible(t, s, mode)
            && (forall v :: Accepts(I, t, v) ==> Accepts(I, s, v))
            && ((forall v :: Accepts(I, s, v) ==> Accepts(I, t, v)) <==> (forall v :: Accepts(I, s, v) ==> v == Null))
  {
    var t := s.(keywords := s.keywords["const" := Null]);
    SameButOneNull(s, t, mode);
    SameButOneNull(t, s, mode);
    forall v ensures Accepts(I, t, v) <==> Accepts(I, s, v) && v == Null {
      OnlyNull(I, s, v);
    }
  }

  lemma OnlyNull(I: Meaning, s: Schema, v: Json)
    requires ReadsConst(I) && s.Node? && "const" !in s.keywords
    ensures Accepts(I, s.(keywords := s.keywords["const" := Null]), v) <==> Accepts(I, s, v) && v == Null
  {
    var t := s.(keywords := s.keywords["const" := Null]);
    assert t.keywords["const"] == Null;
    assert forall k | k in s.keywords :: k in t.keywords && t.keywords[k] == s.keywords[k];
    assert forall k | k in t.keywords && k != "const" :: k in s.keywords && t.keywords[k] == s.keywords[k];
    if Accepts(I, s, v) && v == Null {
      assert forall k | k in t.keywords :: I.keyword(k, t.keywords[k], v);
    }
  }

  lemma SameButOneNull(s: Schema, t: Schema, mode: Mode)
    requires s.Node? && t.Node? && t == s.(keywords := t.keywords)
    requires forall k :: Keyword(s, k) == Keyword(t, k)
    ensures Compatible(s, t, mode)
  {
    if ComparesItems(s, t) {
      CompatibleReflexive(ItemsOf(s), mode);
    }
    forall name | name in Fields(s) ensures Compatible(Fields(s)[name], Fields(t)[name], mode) {
      CompatibleReflexive(Fields(s)[name], mode);
    }
  }

  const NULLABLE_OBJECT := Node(map["type" := Arr([Str("object"), Str("null")])], {}, None, NoItems, NoProperties)

  /** `required` under type ["object", "null"] without properties: a new required request field is not reported. */
  lemma UnguardedRequiredSlips(I: Meaning)
    requires I.keyword("type", Arr([Str("object"), Str("null")]), Obj(map[]))
    ensures Compatible(NULLABLE_OBJECT, NULLABLE_OBJECT.(required := {"id"}), Request)
    ensures Accepts(I, NULLABLE_OBJECT, Obj(map[])) && !Accepts(I, NULLABLE_OBJECT.(required := {"id"}), Obj(map[]))
  {
    var v := Obj(map[]);
    assert "id" !in v.fields;
  }

  /** Two accepted steps whose composition is rejected: the middle version hides the required set from both. */
  lemma UnguardedChainBreaks()
    ensures var a := NULLABLE_OBJECT.(properties := Properties(map[]));
            var c := NULLABLE_OBJECT.(required := {"id"});
            Compatible(a, NULLABLE_OBJECT, Request) && Compatible(NULLABLE_OBJECT, c, Request) && !Compatible(a, c, Request)
  {
    assert "id" in NULLABLE_OBJECT.(required := {"id"}).required;
  }

  /** An open request schema: the property a new version adds may already be in use with another type. */
  lemma OpenRequestSlips(I: Meaning)
    requires I.keyword("type", Str("object"), Obj(map["note" := Int(1)])) && !I.keyword("type", Str("string"), Int(1))
    ensures var open := Node(map["type" := Str("object")], {}, None, NoItems, Properties(map[]));
            var note := Node(map["type" := Str("string")], {}, None, NoItems, NoProperties);
            var later := open.(properties := Properties(map["note" := note]));
            && Compatible(open, later, Request) && Plain(later)
            && Accepts(I, open, Obj(map["note" := Int(1)])) && !Accepts(I, later, Obj(map["note" := Int(1)]))
  {
    var note := Node(map["type" := Str("string")], {}, None, NoItems, NoProperties);
    assert "type" in note.keywords;
    assert !Accepts(I, note, Int(1));
    var v := Obj(map["note" := Int(1)]);
    var p := Properties(map["note" := note]);
    assert "note" in p.fields && "note" in v.fields && v.fields["note"] == Int(1) && p.fields["note"] == note;
  }

  // ----- The checker itself: recursion that appends to a shared list of problems -----

  datatype Problem = Problem(path: seq<string>, message: string)

  class ErrorList {
    var problems: seq<Problem>

    constructor ()
      ensures problems == []
    {
      problems := [];
    }

    method Err(path: seq<string>, message: string)
      modifies this
      ensures problems == old(problems) + [Problem(path, message)]
    {
      problems := problems + [Problem(path, message)];
    }
  }

  /** Reports each keyword of `names` that changed; the order of the reports is left open. */
  method CompareKeywords(prev: Schema, next: Schema, names: set<string>, path: seq<string>, errors: ErrorList)
    requires prev.Node? && next.Node?
    modifies errors
    ensures old(errors.problems) <= errors.problems
    ensures errors.problems == old(errors.problems) <==> Agree(prev, next, names)
  {
    var rest := names;
    while rest != {}
      invariant rest <= names
      invariant old(errors.problems) <= errors.problems
      invariant errors.problems == old(errors.problems) <==>
                forall k | k in names - rest :: SameKeyword(k, Keyword(prev, k), Keyword(next, k))
      decreases |rest|
    {
      var k :| k in rest;
      if !SameKeyword(k, Keyword(prev, k), Keyword(next, k)) {
        errors.Err(path, k + " changed");
      }
      assert names - (rest - {k}) == (names - rest) + {k};
      rest := rest - {k};
    }
  }

  /** First the keywords the checker does not know, then those it handles by comparing them. */
  method CompareAllKeywords(prev: Schema, next: Schema, path: seq<string>, errors: ErrorList)
    requires prev.Node? && next.Node?
    modifies errors
    ensures old(errors.problems) <= errors.problems
    ensures errors.problems == old(errors.problems) <==> SameKeywords(prev, next)
  {
    var unhandled := set k | k in prev.keywords.Keys + next.keywords.Keys && k !in ANNOTATIONS && k !in HANDLED;
    CompareKeywords(prev, next, unhandled, path, errors);
    CompareKeywords(prev, next, COMPOSED, path, errors);
    CompareKeywords(prev, next, {"type"}, path, errors);
    CompareKeywords(prev, next, BOUNDS, path, errors);
    TablesCover(prev, next);
  }

  ghost predicate Agree(prev: Schema, next: Schema, names: set<string>)
    requires prev.Node? && next.Node?
  {
    forall k | k in names :: SameKeyword(k, Keyword(prev, k), Keyword(next, k))
  }

  /** Between them the tables name every keyword that may restrict values, and no other. */
  lemma TablesCover(prev: Schema, next: Schema)
    requires prev.Node? && next.Node?
    ensures var unhandled := set k | k in prev.keywords.Keys + next.keywords.Keys && k !in ANNOTATIONS && k !in HANDLED;
            SameKeywords(prev, next) <==>
            Agree(prev, next, unhandled) && Agree(prev, next, COMPOSED) && Agree(prev, next, {"type"}) && Agree(prev, next, BOUNDS)
  {
    var unhandled := set k | k in prev.keywords.Keys + next.keywords.Keys && k !in ANNOTATIONS && k !in HANDLED;
    if SameKeywords(prev, next) {
      forall k | k in unhandled + COMPOSED + {"type"} + BOUNDS ensures SameKeyword(k, Keyword(prev, k), Keyword(next, k)) {
        HandledRestrict(k);
      }
    }
  }

  /** No handled keyword but the structural ones is silent. */
  lemma HandledRestrict(k: string)
    ensures k in COMPOSED || k == "type" || k in BOUNDS ==> !Silent(k)
    ensures k !in ANNOTATIONS && k !in HANDLED ==> !Silent(k)
  {
  }

  /** The list grows exactly when the schemas are incompatible, and what was in it stays. */
  method CompareSchema(prev: Schema, next: Schema, path: seq<string>, mode: Mode, errors: ErrorList)
    modifies errors
    ensures old(errors.problems) <= errors.problems
    ensures errors.problems == old(errors.problems) <==> Compatible(prev, next, mode)
    decreases Height(prev) + Height(next)
  {
    if !prev.Node? || !next.Node? {
      if prev != next {
        errors.Err(path, "schema form changed");
      }
      return;
    }
    CompareAllKeywords(prev, next, path, errors);
    if Open(prev) != Open(next) {
      errors.Err(path, "additionalProperties policy changed");
    }
    if ComparesItems(prev, next) {
      ItemsAreLower(prev, next);
      CompareSchema(ItemsOf(prev), ItemsOf(next), path + ["[]"], mode, errors);
    }
    if ComparesFields(prev, next) {
      CompareFields(prev, next, path, mode, errors);
    }
  }

  lemma EmptyDifference(a: set<string>, b: set<string>)
    ensures a - b == {} <==> a <= b
  {
    if a - b == {} {
      forall x | x in a ensures x in b {
        assert x !in a - b;
      }
    }
  }

  /** Required sets, then the old fields, then the added ones. */
  method CompareFields(prev: Schema, next: Schema, path: seq<string>, mode: Mode, errors: ErrorList)
    requires prev.Node? && next.Node?
    modifies errors
    ensures old(errors.problems) <= errors.problems
    ensures errors.problems == old(errors.problems) <==>
            && RequiredOk(prev, next, mode)
            && OldFieldsKept(prev, next, mode)
            && (mode.Response? && !Open(prev) ==> Fields(next).Keys <= Fields(prev).Keys)
    decreases Height(prev) + Height(next), 1
  {
    if mode.Request? {
      var added := next.required - prev.required;
      EmptyDifference(next.required, prev.required);
      if added != {} {
        errors.Err(path, "new required request fields");
      }
    } else if prev.required != next.required {
      errors.Err(path, "response required set changed");
    }
    CompareOldFields(prev, next, path, mode, errors);
    if mode.Response? && !Open(prev) {
      EmptyDifference(Fields(next).Keys, Fields(prev).Keys);
      ReportAdded(Fields(next).Keys - Fields(prev).Keys, path, errors);
    }
  }

  ghost predicate OldFieldsKept(prev: Schema, next: Schema, mode: Mode)
    requires prev.Node? && next.Node?
  {
    forall name | name in Fields(prev) ::
      name in Fields(next) && Compatible(Fields(prev)[name], Fields(next)[name], mode)
  }

  method CompareOldFields(prev: Schema, next: Schema, path: seq<string>, mode: Mode, errors: ErrorList)
    requires prev.Node? && next.Node?
    modifies errors
    ensures old(errors.problems) <= errors.problems
    ensures errors.problems == old(errors.problems) <==> OldFieldsKept(prev, next, mode)
    decreases Height(prev) + Height(next), 0
  {
    var op, np := Fields(prev), Fields(next);
    var rest := op.Keys;
    while rest != {}
      invariant rest <= op.Keys
      invariant old(errors.problems) <= errors.problems
      invariant errors.problems == old(errors.problems) <==>
                forall name | name in op && name !in rest :: name in np && Compatible(op[name], np[name], mode)
      decreases |rest|
    {
      var name :| name in rest;
      if name !in np {
        errors.Err(path + [name], "field removed");
      } else {
        FieldIsLower(prev, name);
        FieldIsLower(next, name);
        CompareSchema(op[name], np[name], path + [name], mode, errors);
      }
      rest := rest - {name};
    }
  }

  method ReportAdded(names: set<string>, path: seq<string>, errors: ErrorList)
    modifies errors
    ensures old(errors.problems) <= errors.problems
    ensures errors.problems == old(errors.problems) <==> names == {}
  {
    var rest := names;
    while rest != {}
      invariant rest <= names
      invariant old(errors.problems) <= errors.problems
      invariant errors.problems == old(errors.problems) <==> rest == names
      decreases |rest|
    {
      var name :| name in rest;
      errors.Err(path + [name], "new response field rejected by old additionalProperties=false");
      rest := rest - {name};
    }
  }

  // ----- Whole contracts -----

  datatype Contract = Contract(identity: string, kind: string, major: Option<int>, request: Schema, response: Schema)

  ghost predicate SameMajorCompatible(prev: Contract, next: Contract) {
    && prev.identity == next.identity
    && prev.kind == next.kind
    && prev.major.Some? && prev.major == next.major
    && Compatible(prev.request, next.request, Request)
    && Compatible(prev.response, next.response, Response)
  }

  method CompareContracts(prev: Contract, next: Contract) returns (compatible: bool)
    ensures compatible <==> SameMajorCompatible(prev, next)
  {
    var errors := new ErrorList();
    if prev.identity != next.identity {
      errors.Err([], "contract identity changed");
    }
    if prev.kind != next.kind {
      errors.Err([], "operation kind changed");
    }
    if prev.major.None? || next.major.None? {
      errors.Err([], "invalid semantic version");
    } else if prev.major != next.major {
      errors.Err([], "major version changed");
    }
    CompareSchema(prev.request, next.request, ["request"], Request, errors);
    CompareSchema(prev.response, next.response, ["response"], Response, errors);
    compatible := errors.problems == [];
  }

  /** An accepted upgrade of the provider: its old clients' closed requests still arrive, its replies still parse. */
  lemma UpgradeIsSafe(I: Meaning, prev: Contract, next: Contract, request: Json, response: Json)
    requires Standard(I) && ReadsTypes(I) && SameMajorCompatible(prev, next)
    requires Plain(next.request) && Closed(prev.request) && Plain(prev.response)
    ensures Accepts(I, prev.request, request) ==> Accepts(I, next.request, request)
    ensures Accepts(I, next.response, response) ==> Accepts(I, prev.response, response)
    ensures prev.identity == next.identity && prev.kind == next.kind && prev.major.Some? && prev.major == next.major
  {
    if Accepts(I, prev.request, request) {
      ClosedRequestSound(I, prev.request, next.request, request);
    }
    if Accepts(I, next.response, response) {
      ResponseSound(I, prev.response, next.response, response);
    }
  }
}
