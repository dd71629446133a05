/**
 What the compatibility checker's verdict rests on (kernel/tools/contract_compat.py:36-78), place by place: two schemas
 are compatible exactly when the nodes that the same path leads to agree by themselves, wherever it leads.
 */
module ContractPaths {
  import opened Wrappers
  import opened Contracts

  // ----- Places -----

  /** From a schema to what it says of an array's elements, or of a property. */
  datatype Step = Element | Property(name: string)

  predicate OfType(s: Schema, t: string)
    requires s.Node?
  {
    "type" in s.keywords && s.keywords["type"] == Str(t)
  }

  predicate Arrays(prev: Schema, next: Schema)
    requires prev.Node? && next.Node?
  {
    OfType(prev, "array") || OfType(next, "array") || prev.items.Items? || next.items.Items?
  }

  predicate Objects(prev: Schema, next: Schema)
    requires prev.Node? && next.Node?
  {
    OfType(prev, "object") || OfType(next, "object") || prev.properties.Properties? || next.properties.Properties?
  }

  /** An absent `items` says as much as an empty schema. */
  function Elements(s: Schema): Schema
    requires s.Node?
  {
    if s.items.Items? then s.items.each else Node(map[], {}, None, NoItems, NoProperties)
  }

  predicate Has(s: Schema, name: string) {
    s.Node? && s.properties.Properties? && name in s.properties.fields
  }

  /** The two nodes that a path leads to, if it leads anywhere in both. */
  function PairAt(prev: Schema, next: Schema, path: seq<Step>): Option<(Schema, Schema)>
    decreases |path|
  {
    if path == [] then Some((prev, next))
    else if !prev.Node? || !next.Node? then None
    else
      match path[0]
      case Element => if Arrays(prev, next) then PairAt(Elements(prev), Elements(next), path[1..]) else None
      case Property(f) =>
        if Has(prev, f) && Has(next, f) then PairAt(prev.properties.fields[f], next.properties.fields[f], path[1..])
        else None
  }

  // ----- Agreement at one place -----

  /** The value of a keyword, or Null when there is none. */
  function Given(s: Schema, k: string): Json
    requires s.Node?
  {
    if k in s.keywords then s.keywords[k] else Null
  }

  /** Annotations do not matter; bounds may be spelt in two ways; every other keyword has to stay. */
  ghost predicate KeywordStays(prev: Schema, next: Schema, k: string)
    requires prev.Node? && next.Node?
  {
    || k in {"title", "description", "default", "examples", "$comment", "deprecated", "readOnly", "writeOnly"}
    || k in {"properties", "required", "additionalProperties", "items"}
    || Given(prev, k) == Given(next, k)
    || (&& k in {"minimum", "exclusiveMinimum", "maximum", "exclusiveMaximum", "minLength", "maxLength", "minItems", "maxItems"}
        && OneNumber(Given(prev, k), Given(next, k)))
  }

  /** No property goes; a response requires what it did, a request no more; a closed response gets no property. */
  ghost predicate FieldsAgree(prev: Schema, next: Schema, mode: Mode)
    requires prev.Node? && next.Node?
  {
    && (forall name | Has(prev, name) :: Has(next, name))
    && (forall name | name in next.required :: name in prev.required)
    && (mode.Response? ==> forall name | name in prev.required :: name in next.required)
    && (mode.Response? && prev.additional == Some(false) ==> forall name | Has(next, name) :: Has(prev, name))
  }

  ghost predicate AgreeHere(prev: Schema, next: Schema, mode: Mode) {
    if !prev.Node? || !next.Node? then prev == next
    else
      && (forall k :: KeywordStays(prev, next, k))
      && (prev.additional == Some(false) <==> next.additional == Some(false))
      && (Objects(prev, next) ==> FieldsAgree(prev, next, mode))
  }

  ghost predicate AgreeEverywhere(prev: Schema, next: Schema, mode: Mode) {
    forall path :: AgreeAt(prev, next, mode, path)
  }

  ghost predicate AgreeAt(prev: Schema, next: Schema, mode: Mode, path: seq<Step>) {
    var pair := PairAt(prev, next, path);
    pair.Some? ==> AgreeHere(pair.value.0, pair.value.1, mode)
  }

  // ----- The checker looks at every place, and only at single places -----

  lemma KeywordsMean(prev: Schema, next: Schema)
    requires prev.Node? && next.Node?
    ensures SameKeywords(prev, next) <==> forall k :: KeywordStays(prev, next, k)
  {
    forall k
      ensures KeywordStays(prev, next, k) <==>
              Silent(k) || SameKeyword(k, Keyword(prev, k), Keyword(next, k))
    {
      EqualIsOneNumber(Keyword(prev, k), Keyword(next, k));
    }
    if SameKeywords(prev, next) {
      forall k ensures KeywordStays(prev, next, k) {
        if k in prev.keywords.Keys + next.keywords.Keys {
        } else {
          assert Given(prev, k) == Null == Given(next, k);
        }
      }
    }
  }

  /** What the checker asks of a pair of nodes, apart from what lies below them. */
  ghost predicate Shallow(prev: Schema, next: Schema, mode: Mode)
    requires prev.Node? && next.Node?
  {
    && SameKeywords(prev, next) && Open(prev) == Open(next)
    && (ComparesFields(prev, next) ==>
          && RequiredOk(prev, next, mode)
          && Fields(prev).Keys <= Fields(next).Keys
          && (mode.Response? && !Open(prev) ==> Fields(next).Keys <= Fields(prev).Keys))
  }

  lemma HereMeans(prev: Schema, next: Schema, mode: Mode)
    requires prev.Node? && next.Node?
    ensures Shallow(prev, next, mode) <==> AgreeHere(prev, next, mode)
    ensures ComparesItems(prev, next) <==> Arrays(prev, next)
    ensures ItemsOf(prev) == Elements(prev) && ItemsOf(next) == Elements(next)
    ensures forall name :: Has(prev, name) <==> name in Fields(prev)
  {
    hide SameKeywords, KeywordStays;
    KeywordsMean(prev, next);
    if Objects(prev, next) && FieldsAgree(prev, next, mode) {
      assert Fields(prev).Keys <= Fields(next).Keys by {
        forall name | name in Fields(prev) ensures name in Fields(next) {
          assert Has(prev, name);
          assert Has(next, name);
        }
      }
      if mode.Response? && !Open(prev) {
        forall name | name in Fields(next) ensures name in Fields(prev) {
          assert Has(next, name);
          assert Has(prev, name);
        }
      }
    }
  }

  lemma CompatibleUnfolds(prev: Schema, next: Schema, mode: Mode)
    requires prev.Node? && next.Node?
    ensures Compatible(prev, next, mode) <==>
            && Shallow(prev, next, mode)
            && (ComparesItems(prev, next) ==> Compatible(ItemsOf(prev), ItemsOf(next), mode))
            && forall name | name in Fields(prev) && name in Fields(next) ::
                 Compatible(Fields(prev)[name], Fields(next)[name], mode)
  {
    hide SameKeywords, IsType, RequiredOk;
  }

  /** A path below a node is a step and a path from there. */
  lemma PathBelow(prev: Schema, next: Schema, mode: Mode, step: Step, rest: seq<Step>)
    requires prev.Node? && next.Node?
    requires match step case Element => Arrays(prev, next) case Property(f) => Has(prev, f) && Has(next, f)
    ensures var (p, n) := match step
                          case Element => (Elements(prev), Elements(next))
                          case Property(f) => (prev.properties.fields[f], next.properties.fields[f]);
            AgreeAt(prev, next, mode, [step] + rest) <==> AgreeAt(p, n, mode, rest)
  {
    hide AgreeHere;
    assert ([step] + rest)[1..] == rest;
  }

  lemma EverywhereUnfolds(prev: Schema, next: Schema, mode: Mode)
    requires prev.Node? && next.Node?
    ensures AgreeEverywhere(prev, next, mode) <==>
            && AgreeHere(prev, next, mode)
            && (Arrays(prev, next) ==> AgreeEverywhere(Elements(prev), Elements(next), mode))
            && forall name | Has(prev, name) && Has(next, name) ::
                 AgreeEverywhere(prev.properties.fields[name], next.properties.fields[name], mode)
  {
    hide AgreeHere, Arrays, Elements;
    assert AgreeAt(prev, next, mode, []) <==> AgreeHere(prev, next, mode);
    if AgreeEverywhere(prev, next, mode) {
      if Arrays(prev, next) {
        forall path ensures AgreeAt(Elements(prev), Elements(next), mode, path) {
          PathBelow(prev, next, mode, Element, path);
        }
      }
      forall name, path | Has(prev, name) && Has(next, name)
        ensures AgreeAt(prev.properties.fields[name], next.properties.fields[name], mode, path)
      {
        PathBelow(prev, next, mode, Property(name), path);
      }
    }
    if AgreeHere(prev, next, mode)
       && (Arrays(prev, next) ==> AgreeEverywhere(Elements(prev), Elements(next), mode))
       && (forall name | Has(prev, name) && Has(next, name) ::
             AgreeEverywhere(prev.properties.fields[name], next.properties.fields[name], mode)) {
      forall path ensures AgreeAt(prev, next, mode, path) {
        PathSplits(prev, next, mode, path);
      }
    }
  }

  lemma PathSplits(prev: Schema, next: Schema, mode: Mode, path: seq<Step>)
    requires prev.Node? && next.Node? && AgreeHere(prev, next, mode)
    requires Arrays(prev, next) ==> AgreeEverywhere(Elements(prev), Elements(next), mode)
    requires forall name | Has(prev, name) && Has(next, name) ::
               AgreeEverywhere(prev.properties.fields[name], next.properties.fields[name], mode)
    ensures AgreeAt(prev, next, mode, path)
  {
    hide AgreeHere, Arrays, Elements;
    if path != [] && PairAt(prev, next, path).Some? {
      assert path == [path[0]] + path[1..];
      PathBelow(prev, next, mode, path[0], path[1..]);
    }
  }

  lemma FormsAgree(prev: Schema, next: Schema, mode: Mode)
    requires !prev.Node? || !next.Node?
    ensures AgreeEverywhere(prev, next, mode) <==> prev == next
  {
    assert AgreeAt(prev, next, mode, []) <==> prev == next;
    if prev == next {
      forall path ensures AgreeAt(prev, next, mode, path) {
        assert path != [] ==> PairAt(prev, next, path).None?;
      }
    }
  }

  /** The verdict is that of all places, each by itself. */
  lemma {:induction false} CompatibleIsPathwise(prev: Schema, next: Schema, mode: Mode)
    ensures Compatible(prev, next, mode) <==> AgreeEverywhere(prev, next, mode)
    decreases Height(prev) + Height(next)
  {
    if prev.Node? && next.Node? {
      hide AgreeEverywhere, AgreeHere, Compatible, Shallow, Arrays, Elements, ComparesItems, Has;
      HereMeans(prev, next, mode);
      HereMeans(next, prev, mode);
      CompatibleUnfolds(prev, next, mode);
      EverywhereUnfolds(prev, next, mode);
      if ComparesItems(prev, next) {
        ItemsAreLower(prev, next);
        CompatibleIsPathwise(ItemsOf(prev), ItemsOf(next), mode);
      }
      forall name | name in Fields(prev) && name in Fields(next)
        ensures Compatible(Fields(prev)[name], Fields(next)[name], mode) <==>
                AgreeEverywhere(Fields(prev)[name], Fields(next)[name], mode)
      {
        FieldIsLower(prev, name);
        FieldIsLower(next, name);
        CompatibleIsPathwise(Fields(prev)[name], Fields(next)[name], mode);
      }
      FieldsAreHad(prev, next);
    } else {
      FormsAgree(prev, next, mode);
    }
  }

  lemma FieldsAreHad(prev: Schema, next: Schema)
    requires prev.Node? && next.Node?
    ensures forall name :: Has(prev, name) <==> name in Fields(prev)
    ensures forall name :: Has(next, name) <==> name in Fields(next)
    ensures forall name | name in Fields(prev) :: Fields(prev)[name] == prev.properties.fields[name]
    ensures forall name | name in Fields(next) :: Fields(next)[name] == next.properties.fields[name]
  {
  }

  // ----- Edits that are always accepted -----

  /**
   The schemas differ, at any depth, in annotations only, in how bounds are spelt, in names a request no longer requires,
   and in properties that are new to a request or to a response that admits others.
   */
  ghost predicate Edited(prev: Schema, next: Schema, mode: Mode)
    decreases prev
  {
    if !prev.Node? || !next.Node? then prev == next
    else
      && (forall k :: KeywordStays(prev, next, k))
      && prev.additional == next.additional
      && (mode.Request? || prev.required <= next.required) && next.required <= prev.required
      && prev.items.Items? == next.items.Items?
      && (prev.items.Items? ==> Edited(prev.items.each, next.items.each, mode))
      && prev.properties.Properties? == next.properties.Properties?
      && (forall name | Has(prev, name) ::
            Has(next, name) && Edited(prev.properties.fields[name], next.properties.fields[name], mode))
      && (mode.Response? && prev.additional == Some(false) ==> forall name | Has(next, name) :: Has(prev, name))
  }

  lemma {:induction false} EditsAreAccepted(prev: Schema, next: Schema, mode: Mode)
    requires Edited(prev, next, mode)
    ensures Compatible(prev, next, mode)
    decreases prev
  {
    if prev.Node? && next.Node? {
      HereMeans(prev, next, mode);
      CompatibleUnfolds(prev, next, mode);
      if ComparesItems(prev, next) {
        if prev.items.Items? {
          EditsAreAccepted(prev.items.each, next.items.each, mode);
        } else {
          CompatibleReflexive(EMPTY, mode);
        }
      }
      forall name | name in Fields(prev) && name in Fields(next)
        ensures Compatible(Fields(prev)[name], Fields(next)[name], mode)
      {
        assert Has(prev, name);
        EditsAreAccepted(prev.properties.fields[name], next.properties.fields[name], mode);
      }
    }
  }

  /** A contract under its name, kind and major version whose schemas were edited so is accepted. */
  lemma EditedUpgradeIsAccepted(prev: Contract, next: Contract)
    requires prev.identity == next.identity && prev.kind == next.kind && prev.major.Some? && prev.major == next.major
    requires Edited(prev.request, next.request, Request) && Edited(prev.response, next.response, Response)
    ensures SameMajorCompatible(prev, next)
  {
    EditsAreAccepted(prev.request, next.request, Request);
    EditsAreAccepted(prev.response, next.response, Response);
  }
}
