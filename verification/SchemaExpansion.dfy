/** Budgeted expansion of OpenAPI schemas whose $ref graph may be cyclic (schema.go). */
module SchemaExpansion {
  import opened JsonValues
  import opened SchemaRefs
  import opened KeyOrder
  import opened Sequences

  const MAX_NODES := 10_000
  const MARK := "x-supek8smcp-truncated"
  const TRUNCATED := Object(map["truncated" := Bool(true), "reason" := String("schema expansion budget reached")])

  /** The component a schema refers to, if its $ref has the expected form. */
  function RefName(fields: map<string, Json>): Option<string> {
    if "$ref" in fields && fields["$ref"].String? && REF_PREFIX <= fields["$ref"].s
    then Some(fields["$ref"].s[|REF_PREFIX|..]) else None
  }

  function Recursive(fields: map<string, Json>): Json
    requires "$ref" in fields
  {
    Object(map["$ref" := fields["$ref"], "recursive" := Bool(true)])
  }

  predicate Nested(key: string) {
    key in {"items", "additionalProperties", "oneOf", "anyOf", "allOf"}
  }

  // ----- the budget-free meaning -----

  /** What the schema expands to when nothing is cut for lack of budget. */
  function Free(value: Json, schemas: Schemas, depth: int, seen: set<string>): Json
    decreases |schemas.Keys - seen|, value, 2
  {
    if depth < 0 then TRUNCATED
    else
      match value
      case List(items) => List(seq(|items|, i requires 0 <= i < |items| => Free(items[i], schemas, depth, seen)))
      case Object(fields) =>
        var name := RefName(fields);
        if name.Some? && name.value in seen then Recursive(fields)
        else if name.Some? && name.value in schemas then
          SubsetSmaller(schemas.Keys - (seen + {name.value}), schemas.Keys - seen);
          Free(schemas[name.value], schemas, depth, seen + {name.value})
        else FreeObject(value, schemas, depth, seen)
      case _ => value
  }

  function FreeObject(parent: Json, schemas: Schemas, depth: int, seen: set<string>): Json
    requires parent.Object?
    decreases |schemas.Keys - seen|, parent, 1
  {
    Object(map key | key in parent.fields :: FreeField(parent, key, schemas, depth, seen))
  }

  function FreeField(parent: Json, key: string, schemas: Schemas, depth: int, seen: set<string>): Json
    requires parent.Object? && key in parent.fields
    decreases |schemas.Keys - seen|, parent, 0
  {
    var child := parent.fields[key];
    if key == "properties" then
      var properties := Fields(child);
      Object(map property | property in properties :: Free(properties[property], schemas, depth - 1, seen))
    else if Nested(key) then Free(child, schemas, depth - 1, seen)
    else child
  }

  // ----- the budgeted expansion -----

  /** expandSchema as a function of the remaining budget; the second result is what is left of it. */
  function Expand(value: Json, schemas: Schemas, depth: int, seen: set<string>, budget: nat): (Json, nat)
    decreases |schemas.Keys - seen|, value, 3, 0
  {
    if depth < 0 || budget == 0 then (TRUNCATED, budget)
    else
      match value
      case List(items) =>
        var (expanded, left) := ExpandItems(value, 0, schemas, depth, seen, budget - 1);
        (List(expanded), left)
      case Object(fields) =>
        var name := RefName(fields);
        if name.Some? && name.value in seen then (Recursive(fields), budget - 1)
        else if name.Some? && name.value in schemas then
          SubsetSmaller(schemas.Keys - (seen + {name.value}), schemas.Keys - seen);
          Expand(schemas[name.value], schemas, depth, seen + {name.value}, budget - 1)
        else
          SortedKeysAreKeys(fields.Keys);
          var (expanded, left) := ExpandFields(value, SortedKeys(fields.Keys), schemas, depth, seen, budget - 1);
          (Object(expanded), left)
      case _ => (value, budget - 1)
  }

  function ExpandItems(parent: Json, from: nat, schemas: Schemas, depth: int, seen: set<string>,
                       budget: nat): (seq<Json>, nat)
    requires parent.List? && from <= |parent.items|
    decreases |schemas.Keys - seen|, parent, 1, |parent.items| - from
  {
    if from == |parent.items| then ([], budget)
    else if budget == 0 then ([TRUNCATED], 0)
    else
      var (first, left) := Expand(parent.items[from], schemas, depth, seen, budget);
      var (rest, remaining) := ExpandItems(parent, from + 1, schemas, depth, seen, left);
      ([first] + rest, remaining)
  }

  function ExpandFields(parent: Json, keys: seq<string>, schemas: Schemas, depth: int, seen: set<string>,
                        budget: nat): (map<string, Json>, nat)
    requires parent.Object? && forall key :: key in keys ==> key in parent.fields
    decreases |schemas.Keys - seen|, parent, 2, |keys|
  {
    if keys == [] then (map[], budget)
    else if budget == 0 then (map[MARK := Bool(true)], 0)
    else
      var (first, left) := ExpandField(parent, keys[0], schemas, depth, seen, budget);
      var (rest, remaining) := ExpandFields(parent, keys[1..], schemas, depth, seen, left);
      (map[keys[0] := first] + rest, remaining)
  }

  function ExpandField(parent: Json, key: string, schemas: Schemas, depth: int, seen: set<string>,
                       budget: nat): (Json, nat)
    requires parent.Object? && key in parent.fields && budget > 0
    decreases |schemas.Keys - seen|, parent, 1, 0
  {
    var child := parent.fields[key];
    if key == "properties" then
      SortedKeysAreKeys(Fields(child).Keys);
      var (expanded, left) := ExpandProperties(child, SortedKeys(Fields(child).Keys), schemas, depth, seen, budget);
      (Object(expanded), left)
    else if Nested(key) then Expand(child, schemas, depth - 1, seen, budget)
    else (child, budget - 1)
  }

  function ExpandProperties(parent: Json, keys: seq<string>, schemas: Schemas, depth: int, seen: set<string>,
                            budget: nat): (map<string, Json>, nat)
    requires forall key :: key in keys ==> key in Fields(parent)
    decreases |schemas.Keys - seen|, parent, 1, |keys|
  {
    if keys == [] then (map[], budget)
    else if budget == 0 then (map[MARK := TRUNCATED], 0)
    else
      var (first, left) := Expand(Fields(parent)[keys[0]], schemas, depth - 1, seen, budget);
      var (rest, remaining) := ExpandProperties(parent, keys[1..], schemas, depth, seen, left);
      (map[keys[0] := first] + rest, remaining)
  }

  // ----- the number of nodes the budget-free expansion visits -----

  function Cost(value: Json, schemas: Schemas, depth: int, seen: set<string>): nat
    decreases |schemas.Keys - seen|, value, 3, 0
  {
    if depth < 0 then 0
    else
      match value
      case List(items) => 1 + ItemsCost(value, 0, schemas, depth, seen)
      case Object(fields) =>
        var name := RefName(fields);
        if name.Some? && name.value in seen then 1
        else if name.Some? && name.value in schemas then
          SubsetSmaller(schemas.Keys - (seen + {name.value}), schemas.Keys - seen);
          1 + Cost(schemas[name.value], schemas, depth, seen + {name.value})
        else
          SortedKeysAreKeys(fields.Keys);
          1 + FieldsCost(value, SortedKeys(fields.Keys), schemas, depth, seen)
      case _ => 1
  }

  function ItemsCost(parent: Json, from: nat, schemas: Schemas, depth: int, seen: set<string>): nat
    requires parent.List? && from <= |parent.items|
    decreases |schemas.Keys - seen|, parent, 1, |parent.items| - from
  {
    if from == |parent.items| then 0
    else Cost(parent.items[from], schemas, depth, seen) + ItemsCost(parent, from + 1, schemas, depth, seen)
  }

  function FieldsCost(parent: Json, keys: seq<string>, schemas: Schemas, depth: int, seen: set<string>): nat
    requires parent.Object? && forall key :: key in keys ==> key in parent.fields
    decreases |schemas.Keys - seen|, parent, 2, |keys|
  {
    if keys == [] then 0
    else FieldCost(parent, keys[0], schemas, depth, seen) + FieldsCost(parent, keys[1..], schemas, depth, seen)
  }

  function FieldCost(parent: Json, key: string, schemas: Schemas, depth: int, seen: set<string>): nat
    requires parent.Object? && key in parent.fields
    decreases |schemas.Keys - seen|, parent, 1, 0
  {
    var child := parent.fields[key];
    if key == "properties" then
      SortedKeysAreKeys(Fields(child).Keys);
      PropertiesCost(child, SortedKeys(Fields(child).Keys), schemas, depth, seen)
    else if Nested(key) then Cost(child, schemas, depth - 1, seen)
    else 1
  }

  function PropertiesCost(parent: Json, keys: seq<string>, schemas: Schemas, depth: int, seen: set<string>): nat
    requires forall key :: key in keys ==> key in Fields(parent)
    decreases |schemas.Keys - seen|, parent, 1, |keys|
  {
    if keys == [] then 0
    else
      Cost(Fields(parent)[keys[0]], schemas, depth - 1, seen) +
      PropertiesCost(parent, keys[1..], schemas, depth, seen)
  }

  // ----- truncation markers -----

  ghost predicate HasMarker(value: Json) {
    match value
    case List(items) => exists i :: 0 <= i < |items| && HasMarker(items[i])
    case Object(fields) => value == TRUNCATED || MARK in fields || exists key :: key in fields && HasMarker(fields[key])
    case _ => false
  }

  /** The result is the whole expansion cut short, and every cut is marked where it was made: by the truncation value
      in place of what is missing, as the last entry of a shortened list, or by the mark in an object that lacks
      fields. */
  ghost predicate Cut(result: Json, whole: Json)
    decreases result, 1
  {
    || result == whole
    || result == TRUNCATED
    || (result.List? && whole.List? && CutItems(result, whole))
    || (result.Object? && whole.Object? && CutFields(result, whole))
  }

  ghost predicate CutItems(result: Json, whole: Json)
    requires result.List? && whole.List?
    decreases result, 0
  {
    var n := |result.items|;
    && n <= |whole.items| && (n < |whole.items| ==> n > 0 && result.items[n - 1] == TRUNCATED)
    && forall i :: 0 <= i < n ==> Cut(result.items[i], whole.items[i])
  }

  ghost predicate CutFields(result: Json, whole: Json)
    requires result.Object? && whole.Object?
    decreases result, 0
  {
    var mark := "x-supek8smcp-truncated";
    && (forall key :: key in whole.fields ==> key in result.fields || mark in result.fields)
    && (mark in result.fields && mark !in whole.fields ==> result.fields[mark] in {Bool(true), TRUNCATED})
    && forall key :: key in result.fields && key != mark ==>
         key in whole.fields && Cut(result.fields[key], whole.fields[key])
  }

  /** What is cut has a marker somewhere. */
  lemma {:induction false} CutIsMarked(result: Json, whole: Json)
    requires Cut(result, whole)
    ensures result == whole || HasMarker(result)
    decreases result
  {
    if result == whole || result == TRUNCATED {
    } else if result.List? {
      var n := |result.items|;
      if n < |whole.items| {
        assert HasMarker(result.items[n - 1]);
      } else {
        var i :| 0 <= i < n && result.items[i] != whole.items[i];
        CutIsMarked(result.items[i], whole.items[i]);
      }
    } else if MARK !in result.fields {
      if forall key :: key in result.fields ==> result.fields[key] == whole.fields[key] {
        SameMap(result.fields, whole.fields);
      }
      var key :| key in result.fields && result.fields[key] != whole.fields[key];
      CutIsMarked(result.fields[key], whole.fields[key]);
    }
  }

  function Left(budget: nat, cost: nat): nat {
    if budget > cost then budget - cost else 0
  }

  ghost predicate Enumerates(keys: seq<string>, fields: map<string, Json>) {
    Distinct(keys) && forall key :: key in keys <==> key in fields
  }

  /** The three facts every part of the expansion satisfies: what is left is the budget minus the cost, anything
      left means nothing was cut, and every cut is marked in its place. */
  ghost predicate Means(result: (Json, nat), free: Json, cost: nat, budget: nat) {
    && result.1 == Left(budget, cost)
    && (result.1 > 0 ==> result.0 == free)
    && Cut(result.0, free)
  }

  ghost predicate ItemsMean(result: (seq<Json>, nat), free: seq<Json>, cost: nat, budget: nat) {
    && result.1 == Left(budget, cost)
    && (result.1 > 0 ==> result.0 == free)
    && CutItems(List(result.0), List(free))
  }

  ghost predicate FieldsMean(result: (map<string, Json>, nat), free: map<string, Json>, cost: nat, budget: nat) {
    && result.1 == Left(budget, cost)
    && (result.1 > 0 ==> result.0 == free)
    && CutFields(Object(result.0), Object(free))
  }

  lemma {:induction false} ConsItems(first: (Json, nat), freeFirst: Json, cost: nat,
                                     rest: (seq<Json>, nat), freeRest: seq<Json>, costRest: nat, budget: nat)
    requires Means(first, freeFirst, cost, budget) && ItemsMean(rest, freeRest, costRest, first.1)
    ensures ItemsMean(([first.0] + rest.0, rest.1), [freeFirst] + freeRest, cost + costRest, budget)
  {
    var result, whole := List([first.0] + rest.0), List([freeFirst] + freeRest);
    forall i | 0 <= i < |result.items| ensures Cut(result.items[i], whole.items[i]) {
      assert i > 0 ==> Cut(List(rest.0).items[i - 1], List(freeRest).items[i - 1]);
    }
  }

  lemma {:induction false} ConsFields(key: string, first: (Json, nat), freeFirst: Json, cost: nat,
                                      rest: (map<string, Json>, nat), freeRest: map<string, Json>, costRest: nat,
                                      budget: nat)
    requires Means(first, freeFirst, cost, budget) && FieldsMean(rest, freeRest, costRest, first.1)
    requires key in rest.0 ==> key == MARK
    requires key !in freeRest
    ensures FieldsMean((map[key := first.0] + rest.0, rest.1), map[key := freeFirst] + freeRest, cost + costRest,
                       budget)
  {
    var result, whole := Object(map[key := first.0] + rest.0), Object(map[key := freeFirst] + freeRest);
    forall other | other in result.fields && other != MARK
      ensures other in whole.fields && Cut(result.fields[other], whole.fields[other])
    {
      assert other != key ==> other in Object(rest.0).fields;
    }
  }

  lemma {:induction false} WrapFields(fields: (map<string, Json>, nat), free: map<string, Json>, cost: nat, budget: nat)
    requires FieldsMean(fields, free, cost, budget)
    ensures Means((Object(fields.0), fields.1), Object(free), cost, budget)
    ensures Means((Object(fields.0), fields.1), Object(free), 1 + cost, budget + 1)
  {
  }

  // The budget-free parts, in the order the budgeted walk visits them.

  function FreeItems(parent: Json, from: nat, schemas: Schemas, depth: int, seen: set<string>): seq<Json>
    requires parent.List? && from <= |parent.items|
    decreases |parent.items| - from
  {
    if from == |parent.items| then []
    else [Free(parent.items[from], schemas, depth, seen)] + FreeItems(parent, from + 1, schemas, depth, seen)
  }

  function FreeFields(parent: Json, keys: seq<string>, schemas: Schemas, depth: int,
                      seen: set<string>): map<string, Json>
    requires parent.Object? && forall key :: key in keys ==> key in parent.fields
    decreases |keys|
  {
    if keys == [] then map[]
    else
      map[keys[0] := FreeField(parent, keys[0], schemas, depth, seen)] +
      FreeFields(parent, keys[1..], schemas, depth, seen)
  }

  function FreeProperties(parent: Json, keys: seq<string>, schemas: Schemas, depth: int,
                          seen: set<string>): map<string, Json>
    requires forall key :: key in keys ==> key in Fields(parent)
    decreases |keys|
  {
    if keys == [] then map[]
    else
      map[keys[0] := Free(Fields(parent)[keys[0]], schemas, depth - 1, seen)] +
      FreeProperties(parent, keys[1..], schemas, depth, seen)
  }

  lemma {:induction false} FreeItemsAre(parent: Json, from: nat, schemas: Schemas, depth: int, seen: set<string>)
    requires parent.List? && from <= |parent.items|
    ensures var items := FreeItems(parent, from, schemas, depth, seen);
            && |items| == |parent.items| - from
            && forall i :: 0 <= i < |items| ==> items[i] == Free(parent.items[from + i], schemas, depth, seen)
    decreases |parent.items| - from
  {
    if from < |parent.items| {
      FreeItemsAre(parent, from + 1, schemas, depth, seen);
    }
  }

  lemma {:induction false} FreeFieldsKeys(parent: Json, keys: seq<string>, schemas: Schemas, depth: int,
                                          seen: set<string>)
    requires parent.Object? && forall key :: key in keys ==> key in parent.fields
    ensures forall key :: key in FreeFields(parent, keys, schemas, depth, seen) <==> key in keys
    decreases |keys|
  {
    if keys != [] {
      FreeFieldsKeys(parent, keys[1..], schemas, depth, seen);
    }
  }

  lemma {:induction false} FreeFieldsAt(parent: Json, keys: seq<string>, schemas: Schemas, depth: int,
                                        seen: set<string>, key: string)
    requires parent.Object? && (forall key :: key in keys ==> key in parent.fields) && key in keys
    ensures key in FreeFields(parent, keys, schemas, depth, seen)
    ensures FreeFields(parent, keys, schemas, depth, seen)[key] == FreeField(parent, key, schemas, depth, seen)
    decreases |keys|
  {
    FreeFieldsKeys(parent, keys[1..], schemas, depth, seen);
    if key in keys[1..] {
      FreeFieldsAt(parent, keys[1..], schemas, depth, seen, key);
    }
  }

  lemma {:induction false} FreePropertiesKeys(parent: Json, keys: seq<string>, schemas: Schemas, depth: int,
                                              seen: set<string>)
    requires forall key :: key in keys ==> key in Fields(parent)
    ensures forall key :: key in FreeProperties(parent, keys, schemas, depth, seen) <==> key in keys
    decreases |keys|
  {
    if keys != [] {
      FreePropertiesKeys(parent, keys[1..], schemas, depth, seen);
    }
  }

  lemma {:induction false} FreePropertiesAt(parent: Json, keys: seq<string>, schemas: Schemas, depth: int,
                                            seen: set<string>, key: string)
    requires (forall key :: key in keys ==> key in Fields(parent)) && key in keys
    ensures key in FreeProperties(parent, keys, schemas, depth, seen)
    ensures FreeProperties(parent, keys, schemas, depth, seen)[key] ==
            Free(Fields(parent)[key], schemas, depth - 1, seen)
    decreases |keys|
  {
    FreePropertiesKeys(parent, keys[1..], schemas, depth, seen);
    if key in keys[1..] {
      FreePropertiesAt(parent, keys[1..], schemas, depth, seen, key);
    }
  }

  lemma {:induction false} SameMap(a: map<string, Json>, b: map<string, Json>)
    requires (forall key :: key in a <==> key in b) && forall key :: key in a ==> a[key] == b[key]
    ensures a == b
  {
  }

  lemma {:induction false} FreeOfList(value: Json, schemas: Schemas, depth: int, seen: set<string>)
    requires value.List? && depth >= 0
    ensures Free(value, schemas, depth, seen) == List(FreeItems(value, 0, schemas, depth, seen))
  {
    FreeItemsAre(value, 0, schemas, depth, seen);
  }

  lemma {:induction false} FreeObjectIs(value: Json, keys: seq<string>, schemas: Schemas, depth: int, seen: set<string>)
    requires value.Object? && Enumerates(keys, value.fields)
    ensures FreeObject(value, schemas, depth, seen) == Object(FreeFields(value, keys, schemas, depth, seen))
  {
    var fields, whole := FreeFields(value, keys, schemas, depth, seen), FreeObject(value, schemas, depth, seen).fields;
    FreeFieldsKeys(value, keys, schemas, depth, seen);
    forall key | key in fields ensures fields[key] == whole[key] {
      FreeFieldsAt(value, keys, schemas, depth, seen, key);
    }
    SameMap(fields, whole);
  }

  /** A schema that is expanded field by field, because it is no reference or a dangling one. */
  predicate Plain(value: Json, schemas: Schemas, seen: set<string>) {
    value.Object? &&
    var name := RefName(value.fields);
    name.None? || (name.value !in seen && name.value !in schemas)
  }

  lemma {:induction false} KeysEnumerate(fields: map<string, Json>)
    ensures Enumerates(SortedKeys(fields.Keys), fields)
  {
    SortedKeysEnumerate(fields.Keys);
  }

  lemma {:induction false} PlainUnfolds(value: Json, schemas: Schemas, depth: int, seen: set<string>, budget: nat)
    requires Plain(value, schemas, seen) && depth >= 0 && budget > 0
    ensures Enumerates(SortedKeys(value.fields.Keys), value.fields)
    ensures var keys := SortedKeys(value.fields.Keys);
            var fields := ExpandFields(value, keys, schemas, depth, seen, budget - 1);
            && Expand(value, schemas, depth, seen, budget) == (Object(fields.0), fields.1)
            && Free(value, schemas, depth, seen) == FreeObject(value, schemas, depth, seen)
            && Cost(value, schemas, depth, seen) == 1 + FieldsCost(value, keys, schemas, depth, seen)
  {
    KeysEnumerate(value.fields);
  }

  lemma {:induction false} FreeOfProperties(parent: Json, keys: seq<string>, schemas: Schemas, depth: int,
                                            seen: set<string>)
    requires parent.Object? && "properties" in parent.fields && Enumerates(keys, Fields(parent.fields["properties"]))
    ensures FreeField(parent, "properties", schemas, depth, seen) ==
            Object(FreeProperties(parent.fields["properties"], keys, schemas, depth, seen))
  {
    var child := parent.fields["properties"];
    var fields := FreeProperties(child, keys, schemas, depth, seen);
    var whole := map property | property in Fields(child) :: Free(Fields(child)[property], schemas, depth - 1, seen);
    FreePropertiesKeys(child, keys, schemas, depth, seen);
    forall key | key in fields ensures fields[key] == whole[key] {
      FreePropertiesAt(child, keys, schemas, depth, seen, key);
    }
    SameMap(fields, whole);
  }

  /** The main result: for every document, cyclic or not, and every budget. */
  lemma {:induction false} ExpandMeaning(value: Json, schemas: Schemas, depth: int, seen: set<string>, budget: nat)
    ensures Means(Expand(value, schemas, depth, seen, budget), Free(value, schemas, depth, seen),
                  Cost(value, schemas, depth, seen), budget)
    decreases |schemas.Keys - seen|, value, 3, 1
  {
    if depth >= 0 && budget > 0 {
      match value
      case List(_) => ListMeaning(value, schemas, depth, seen, budget);
      case Object(fields) =>
        var name := RefName(fields);
        if name.Some? && name.value in seen {
        } else if name.Some? && name.value in schemas {
          TargetMeaning(value, name.value, schemas, depth, seen, budget);
          RefMeaning(value, name.value, schemas, depth, seen, budget);
        } else {
          PlainMeaning(value, schemas, depth, seen, budget);
        }
      case _ =>
    }
  }

  lemma {:induction false} ListMeaning(value: Json, schemas: Schemas, depth: int, seen: set<string>, budget: nat)
    requires value.List? && depth >= 0 && budget > 0
    ensures Means(Expand(value, schemas, depth, seen, budget), Free(value, schemas, depth, seen),
                  Cost(value, schemas, depth, seen), budget)
    decreases |schemas.Keys - seen|, value, 3, 0
  {
    ItemsMeaning(value, 0, schemas, depth, seen, budget - 1);
    FreeOfList(value, schemas, depth, seen);
  }

  lemma {:induction false} RefUnfolds(value: Json, name: string, schemas: Schemas, depth: int, seen: set<string>,
                                      budget: nat)
    requires value.Object? && depth >= 0 && budget > 0
    requires RefName(value.fields) == Some(name) && name !in seen && name in schemas
    ensures Expand(value, schemas, depth, seen, budget) ==
            Expand(schemas[name], schemas, depth, seen + {name}, budget - 1)
    ensures Free(value, schemas, depth, seen) == Free(schemas[name], schemas, depth, seen + {name})
    ensures Cost(value, schemas, depth, seen) == 1 + Cost(schemas[name], schemas, depth, seen + {name})
  {
  }

  lemma {:induction false} TargetMeaning(value: Json, name: string, schemas: Schemas, depth: int, seen: set<string>,
                                         budget: nat)
    requires budget > 0 && name !in seen && name in schemas
    ensures Means(Expand(schemas[name], schemas, depth, seen + {name}, budget - 1),
                  Free(schemas[name], schemas, depth, seen + {name}),
                  Cost(schemas[name], schemas, depth, seen + {name}), budget - 1)
    decreases |schemas.Keys - seen|, value, 3, 0
  {
    SubsetSmaller(schemas.Keys - (seen + {name}), schemas.Keys - seen);
    ExpandMeaning(schemas[name], schemas, depth, seen + {name}, budget - 1);
  }

  /** A followed reference means what its target means, for one node more. */
  lemma {:induction false} RefMeaning(value: Json, name: string, schemas: Schemas, depth: int, seen: set<string>,
                                      budget: nat)
    requires value.Object? && depth >= 0 && budget > 0
    requires RefName(value.fields) == Some(name) && name !in seen && name in schemas
    requires Means(Expand(schemas[name], schemas, depth, seen + {name}, budget - 1),
                   Free(schemas[name], schemas, depth, seen + {name}),
                   Cost(schemas[name], schemas, depth, seen + {name}), budget - 1)
    ensures Means(Expand(value, schemas, depth, seen, budget), Free(value, schemas, depth, seen),
                  Cost(value, schemas, depth, seen), budget)
  {
    RefUnfolds(value, name, schemas, depth, seen, budget);
    MeansOneMore(Expand(schemas[name], schemas, depth, seen + {name}, budget - 1),
                 Free(schemas[name], schemas, depth, seen + {name}),
                 Cost(schemas[name], schemas, depth, seen + {name}), budget - 1);
  }

  lemma {:induction false} MeansOneMore(result: (Json, nat), free: Json, cost: nat, budget: nat)
    requires Means(result, free, cost, budget)
    ensures Means(result, free, 1 + cost, budget + 1)
  {
  }

  lemma {:induction false} PlainMeaning(value: Json, schemas: Schemas, depth: int, seen: set<string>, budget: nat)
    requires Plain(value, schemas, seen) && depth >= 0 && budget > 0
    ensures Means(Expand(value, schemas, depth, seen, budget), Free(value, schemas, depth, seen),
                  Cost(value, schemas, depth, seen), budget)
    decreases |schemas.Keys - seen|, value, 3, 0
  {
    var keys := SortedKeys(value.fields.Keys);
    PlainUnfolds(value, schemas, depth, seen, budget);
    ObjectMeaning(value, keys, schemas, depth, seen, budget);
  }

  lemma {:induction false} ObjectFromFields(value: Json, keys: seq<string>, schemas: Schemas, depth: int,
                                            seen: set<string>,
                                            result: (map<string, Json>, nat), cost: nat, budget: nat)
    requires value.Object? && Enumerates(keys, value.fields)
    requires FieldsMean(result, FreeFields(value, keys, schemas, depth, seen), cost, budget)
    ensures Means((Object(result.0), result.1), FreeObject(value, schemas, depth, seen), 1 + cost, budget + 1)
  {
    FreeObjectIs(value, keys, schemas, depth, seen);
    WrapFields(result, FreeFields(value, keys, schemas, depth, seen), cost, budget);
  }

  lemma {:induction false} ObjectMeaning(value: Json, keys: seq<string>, schemas: Schemas, depth: int,
                                         seen: set<string>, budget: nat)
    requires value.Object? && Enumerates(keys, value.fields) && budget > 0
    ensures var fields := ExpandFields(value, keys, schemas, depth, seen, budget - 1);
            Means((Object(fields.0), fields.1), FreeObject(value, schemas, depth, seen),
                  1 + FieldsCost(value, keys, schemas, depth, seen), budget)
    decreases |schemas.Keys - seen|, value, 2, |keys| + 1
  {
    FieldsMeaning(value, keys, schemas, depth, seen, budget - 1);
    ObjectFromFields(value, keys, schemas, depth, seen, ExpandFields(value, keys, schemas, depth, seen, budget - 1),
                     FieldsCost(value, keys, schemas, depth, seen), budget - 1);
  }

  lemma {:induction false} ItemsMeaning(parent: Json, from: nat, schemas: Schemas, depth: int, seen: set<string>,
                                        budget: nat)
    requires parent.List? && from <= |parent.items|
    ensures ItemsMean(ExpandItems(parent, from, schemas, depth, seen, budget),
                      FreeItems(parent, from, schemas, depth, seen),
                      ItemsCost(parent, from, schemas, depth, seen), budget)
    decreases |schemas.Keys - seen|, parent, 1, |parent.items| - from
  {
    if from < |parent.items| {
      if budget == 0 {
        FreeItemsAre(parent, from, schemas, depth, seen);
      } else {
        var first := Expand(parent.items[from], schemas, depth, seen, budget);
        ExpandMeaning(parent.items[from], schemas, depth, seen, budget);
        ItemsMeaning(parent, from + 1, schemas, depth, seen, first.1);
        ConsItems(first, Free(parent.items[from], schemas, depth, seen), Cost(parent.items[from], schemas, depth, seen),
                  ExpandItems(parent, from + 1, schemas, depth, seen, first.1),
                  FreeItems(parent, from + 1, schemas, depth, seen),
                  ItemsCost(parent, from + 1, schemas, depth, seen), budget);
      }
    }
  }

  lemma {:induction false} FieldsMeaning(parent: Json, keys: seq<string>, schemas: Schemas, depth: int,
                                         seen: set<string>, budget: nat)
    requires parent.Object? && Distinct(keys) && forall key :: key in keys ==> key in parent.fields
    ensures FieldsMean(ExpandFields(parent, keys, schemas, depth, seen, budget),
                       FreeFields(parent, keys, schemas, depth, seen),
                       FieldsCost(parent, keys, schemas, depth, seen), budget)
    ensures forall key :: key in ExpandFields(parent, keys, schemas, depth, seen, budget).0 ==>
        key in keys || key == MARK
    decreases |schemas.Keys - seen|, parent, 2, |keys|
  {
    if keys != [] && budget > 0 {
      var first := ExpandField(parent, keys[0], schemas, depth, seen, budget);
      FieldMeaning(parent, keys[0], schemas, depth, seen, budget);
      FieldsMeaning(parent, keys[1..], schemas, depth, seen, first.1);
      FreeFieldsKeys(parent, keys[1..], schemas, depth, seen);
      ConsFields(keys[0], first, FreeField(parent, keys[0], schemas, depth, seen),
                 FieldCost(parent, keys[0], schemas, depth, seen),
                 ExpandFields(parent, keys[1..], schemas, depth, seen, first.1),
                 FreeFields(parent, keys[1..], schemas, depth, seen),
                 FieldsCost(parent, keys[1..], schemas, depth, seen), budget);
    }
  }

  lemma {:induction false} FieldMeaning(parent: Json, key: string, schemas: Schemas, depth: int, seen: set<string>,
                                        budget: nat)
    requires parent.Object? && key in parent.fields && budget > 0
    ensures Means(ExpandField(parent, key, schemas, depth, seen, budget), FreeField(parent, key, schemas, depth, seen),
                  FieldCost(parent, key, schemas, depth, seen), budget)
    decreases |schemas.Keys - seen|, parent, 1, 0
  {
    var child := parent.fields[key];
    if key == "properties" {
      var keys := SortedKeys(Fields(child).Keys);
      KeysEnumerate(Fields(child));
      FreeOfProperties(parent, keys, schemas, depth, seen);
      PropertiesMeaning(child, keys, schemas, depth, seen, budget);
      WrapFields(ExpandProperties(child, keys, schemas, depth, seen, budget),
                 FreeProperties(child, keys, schemas, depth, seen),
                 PropertiesCost(child, keys, schemas, depth, seen), budget);
    } else if Nested(key) {
      ExpandMeaning(child, schemas, depth - 1, seen, budget);
    }
  }

  lemma {:induction false} PropertiesMeaning(parent: Json, keys: seq<string>, schemas: Schemas, depth: int,
                                             seen: set<string>, budget: nat)
    requires Distinct(keys) && forall key :: key in keys ==> key in Fields(parent)
    ensures FieldsMean(ExpandProperties(parent, keys, schemas, depth, seen, budget),
                       FreeProperties(parent, keys, schemas, depth, seen),
                       PropertiesCost(parent, keys, schemas, depth, seen), budget)
    ensures forall key :: key in ExpandProperties(parent, keys, schemas, depth, seen, budget).0 ==>
        key in keys || key == MARK
    decreases |schemas.Keys - seen|, parent, 1, |keys|
  {
    if keys != [] && budget > 0 {
      var child := Fields(parent)[keys[0]];
      var first := Expand(child, schemas, depth - 1, seen, budget);
      ExpandMeaning(child, schemas, depth - 1, seen, budget);
      PropertiesMeaning(parent, keys[1..], schemas, depth, seen, first.1);
      FreePropertiesKeys(parent, keys[1..], schemas, depth, seen);
      ConsFields(keys[0], first, Free(child, schemas, depth - 1, seen), Cost(child, schemas, depth - 1, seen),
                 ExpandProperties(parent, keys[1..], schemas, depth, seen, first.1),
                 FreeProperties(parent, keys[1..], schemas, depth, seen),
                 PropertiesCost(parent, keys[1..], schemas, depth, seen), budget);
    }
  }

  // ----- what comes before a cut is whole -----

  /** An entry that the budget reaches past is shown whole, whatever is cut after it. */
  lemma {:induction false} ItemsBeforeTheCut(parent: Json, from: nat, schemas: Schemas, depth: int, seen: set<string>,
                                             budget: nat, k: nat)
    requires parent.List? && from + k < |parent.items|
    requires ItemsCost(parent, from, schemas, depth, seen) - ItemsCost(parent, from + k + 1, schemas, depth, seen)
             < budget
    ensures var shown := ExpandItems(parent, from, schemas, depth, seen, budget).0;
            k < |shown| && shown[k] == Free(parent.items[from + k], schemas, depth, seen)
    decreases k
  {
    ExpandMeaning(parent.items[from], schemas, depth, seen, budget);
    if k > 0 {
      ItemsCostGrows(parent, from + 1, k, schemas, depth, seen);
      var left := Expand(parent.items[from], schemas, depth, seen, budget).1;
      ItemsBeforeTheCut(parent, from + 1, schemas, depth, seen, left, k - 1);
    }
  }

  lemma {:induction false} ItemsCostGrows(parent: Json, from: nat, n: nat, schemas: Schemas, depth: int,
                                          seen: set<string>)
    requires parent.List? && from + n <= |parent.items|
    ensures ItemsCost(parent, from, schemas, depth, seen) >= ItemsCost(parent, from + n, schemas, depth, seen)
    decreases n
  {
    if n > 0 {
      ItemsCostGrows(parent, from + 1, n - 1, schemas, depth, seen);
    }
  }

  /** The same for a field, in the sorted order of the keys. */
  lemma {:induction false} FieldsBeforeTheCut(parent: Json, keys: seq<string>, schemas: Schemas, depth: int,
                                              seen: set<string>, budget: nat, k: nat)
    requires parent.Object? && Distinct(keys) && (forall key :: key in keys ==> key in parent.fields)
    requires k < |keys| && keys[k] != MARK
    requires FieldsCost(parent, keys, schemas, depth, seen) - FieldsCost(parent, keys[k + 1..], schemas, depth, seen)
             < budget
    ensures var shown := ExpandFields(parent, keys, schemas, depth, seen, budget).0;
            keys[k] in shown && shown[keys[k]] == FreeField(parent, keys[k], schemas, depth, seen)
    decreases k
  {
    FieldsCostGrows(parent, keys, k + 1, schemas, depth, seen);
    var first, rest := ExpandField(parent, keys[0], schemas, depth, seen, budget), keys[1..];
    FieldMeaning(parent, keys[0], schemas, depth, seen, budget);
    FieldsMeaning(parent, rest, schemas, depth, seen, first.1);
    if k > 0 {
      assert rest[k - 1] == keys[k] && rest[k..] == keys[k + 1..];
      FieldsCostGrows(parent, rest, k, schemas, depth, seen);
      FieldsBeforeTheCut(parent, rest, schemas, depth, seen, first.1, k - 1);
    }
  }

  lemma {:induction false} FieldsCostGrows(parent: Json, keys: seq<string>, k: nat, schemas: Schemas, depth: int,
                                           seen: set<string>)
    requires parent.Object? && (forall key :: key in keys ==> key in parent.fields) && k <= |keys|
    ensures FieldsCost(parent, keys, schemas, depth, seen) >= FieldsCost(parent, keys[k..], schemas, depth, seen)
    decreases k
  {
    if k > 0 {
      FieldsCostGrows(parent, keys[1..], k - 1, schemas, depth, seen);
      assert keys[1..][k - 1..] == keys[k..];
    } else {
      assert keys[0..] == keys;
    }
  }

  /** One describe call: at most 10,000 nodes are visited, a schema of fewer nodes is returned whole, and in any other
      result every cut is marked where it was made. */
  lemma {:induction false} DescribeIsBoundedAndHonest(value: Json, schemas: Schemas, depth: int)
    ensures var (result, left) := Expand(value, schemas, depth, {}, MAX_NODES);
            var visited, cost := MAX_NODES - left, Cost(value, schemas, depth, {});
            && visited == (if cost < 10_000 then cost else 10_000)
            && (cost < 10_000 ==> result == Free(value, schemas, depth, {}))
            && Cut(result, Free(value, schemas, depth, {}))
            && (result != Free(value, schemas, depth, {}) ==> HasMarker(result))
  {
    ExpandMeaning(value, schemas, depth, {}, MAX_NODES);
    CutIsMarked(Expand(value, schemas, depth, {}, MAX_NODES).0, Free(value, schemas, depth, {}));
  }

  // ----- the source's loops over a shared, decreasing budget -----

  class ExpansionBudget {
    var remaining: nat

    constructor (remaining: nat)
      ensures this.remaining == remaining
    {
      this.remaining := remaining;
    }

    method Take() returns (taken: bool)
      modifies this
      ensures taken <==> old(remaining) > 0
      ensures remaining == if taken then old(remaining) - 1 else old(remaining)
    {
      if remaining == 0 {
        return false;
      }
      remaining := remaining - 1;
      return true;
    }
  }

  method ExpandSchema(value: Json, schemas: Schemas, depth: int, seen: set<string>, budget: ExpansionBudget)
    returns (result: Json)
    modifies budget
    ensures (result, budget.remaining) == Expand(value, schemas, depth, seen, old(budget.remaining))
    decreases |schemas.Keys - seen|, value, 4
  {
    if depth < 0 {
      return TRUNCATED;
    }
    var taken := budget.Take();
    if !taken {
      return TRUNCATED;
    }
    match value
    case List(_) =>
      var expanded := ExpandArray(value, schemas, depth, seen, budget);
      result := List(expanded);
    case Object(_) =>
      result := ExpandTakenObject(value, schemas, depth, seen, budget);
    case _ =>
      result := value;
  }

  /** An object whose own node has just been paid for. */
  method ExpandTakenObject(value: Json, schemas: Schemas, depth: int, seen: set<string>, budget: ExpansionBudget)
    returns (result: Json)
    requires value.Object? && depth >= 0
    modifies budget
    ensures (result, budget.remaining) == Expand(value, schemas, depth, seen, old(budget.remaining) + 1)
    decreases |schemas.Keys - seen|, value, 3
  {
    var name := RefName(value.fields);
    if name.Some? && name.value in seen {
      return Recursive(value.fields);
    }
    if name.Some? && name.value in schemas {
      SubsetSmaller(schemas.Keys - (seen + {name.value}), schemas.Keys - seen);
      RefUnfolds(value, name.value, schemas, depth, seen, budget.remaining + 1);
      result := ExpandSchema(schemas[name.value], schemas, depth, seen + {name.value}, budget);
      return;
    }
    PlainUnfolds(value, schemas, depth, seen, budget.remaining + 1);
    var expanded := ExpandObject(value, SortedKeys(value.fields.Keys), schemas, depth, seen, budget);
    result := Object(expanded);
  }

  /** What a loop has collected so far, followed by what the rest of the walk will add. */
  ghost predicate ItemsSoFar(total: (seq<Json>, nat), done: seq<Json>, rest: (seq<Json>, nat)) {
    total == (done + rest.0, rest.1)
  }

  ghost predicate FieldsSoFar(total: (map<string, Json>, nat), done: map<string, Json>,
                              rest: (map<string, Json>, nat)) {
    total == (done + rest.0, rest.1)
  }

  lemma {:induction false} ItemsStart(total: (seq<Json>, nat))
    ensures ItemsSoFar(total, [], total)
  {
    assert [] + total.0 == total.0;
  }

  lemma {:induction false} FieldsStart(total: (map<string, Json>, nat))
    ensures FieldsSoFar(total, map[], total)
  {
    assert map[] + total.0 == total.0;
  }

  lemma {:induction false} ItemsEnd(total: (seq<Json>, nat), done: seq<Json>, rest: (seq<Json>, nat))
    requires ItemsSoFar(total, done, rest)
    ensures rest.0 == [] ==> total == (done, rest.1)
  {
    assert done + [] == done;
  }

  lemma {:induction false} FieldsEnd(total: (map<string, Json>, nat), done: map<string, Json>,
                                     rest: (map<string, Json>, nat))
    requires FieldsSoFar(total, done, rest)
    ensures rest.0 == map[] ==> total == (done, rest.1)
    ensures forall key, value :: rest.0 == map[key := value] ==> total == (done[key := value], rest.1)
  {
    assert done + map[] == done;
    forall key, value | rest.0 == map[key := value] ensures done + rest.0 == done[key := value] {}
  }

  lemma {:induction false} ItemsAdvance(total: (seq<Json>, nat), done: seq<Json>, item: Json, rest: (seq<Json>, nat))
    requires ItemsSoFar(total, done, ([item] + rest.0, rest.1))
    ensures ItemsSoFar(total, done + [item], rest)
  {
    assert done + ([item] + rest.0) == done + [item] + rest.0;
  }

  lemma {:induction false} FieldsAdvance(total: (map<string, Json>, nat), done: map<string, Json>, key: string,
                                         field: Json, rest: (map<string, Json>, nat))
    requires FieldsSoFar(total, done, (map[key := field] + rest.0, rest.1))
    ensures FieldsSoFar(total, done[key := field], rest)
  {
    assert done + (map[key := field] + rest.0) == done[key := field] + rest.0;
  }

  /** One more property, or the marker when the budget is spent. */
  lemma {:induction false} PropertiesStep(total: (map<string, Json>, nat), done: map<string, Json>, parent: Json,
                                          keys: seq<string>, i: nat,
                                          schemas: Schemas, depth: int, seen: set<string>, budget: nat)
    requires i < |keys| && forall key :: key in keys ==> key in Fields(parent)
    requires FieldsSoFar(total, done, ExpandProperties(parent, keys[i..], schemas, depth, seen, budget))
    ensures if budget == 0 then total == (done[MARK := TRUNCATED], 0)
            else
              var (property, left) := Expand(Fields(parent)[keys[i]], schemas, depth - 1, seen, budget);
              FieldsSoFar(total, done[keys[i] := property],
                          ExpandProperties(parent, keys[i + 1..], schemas, depth, seen, left))
  {
    assert keys[i..][1..] == keys[i + 1..];
    if budget == 0 {
      FieldsEnd(total, done, ExpandProperties(parent, keys[i..], schemas, depth, seen, 0));
    } else {
      var (property, left) := Expand(Fields(parent)[keys[i]], schemas, depth - 1, seen, budget);
      FieldsAdvance(total, done, keys[i], property,
                    ExpandProperties(parent, keys[i + 1..], schemas, depth, seen, left));
    }
  }

  lemma {:induction false} FieldsStep(total: (map<string, Json>, nat), done: map<string, Json>, parent: Json,
                                      keys: seq<string>, i: nat,
                                      schemas: Schemas, depth: int, seen: set<string>, budget: nat)
    requires parent.Object? && i < |keys| && forall key :: key in keys ==> key in parent.fields
    requires FieldsSoFar(total, done, ExpandFields(parent, keys[i..], schemas, depth, seen, budget))
    ensures if budget == 0 then total == (done[MARK := Bool(true)], 0)
            else
              var (field, left) := ExpandField(parent, keys[i], schemas, depth, seen, budget);
              FieldsSoFar(total, done[keys[i] := field],
                          ExpandFields(parent, keys[i + 1..], schemas, depth, seen, left))
  {
    assert keys[i..][1..] == keys[i + 1..];
    if budget == 0 {
      FieldsEnd(total, done, ExpandFields(parent, keys[i..], schemas, depth, seen, 0));
    } else {
      var (field, left) := ExpandField(parent, keys[i], schemas, depth, seen, budget);
      FieldsAdvance(total, done, keys[i], field, ExpandFields(parent, keys[i + 1..], schemas, depth, seen, left));
    }
  }

  method ExpandArray(value: Json, schemas: Schemas, depth: int, seen: set<string>, budget: ExpansionBudget)
    returns (expanded: seq<Json>)
    requires value.List?
    modifies budget
    ensures (expanded, budget.remaining) == ExpandItems(value, 0, schemas, depth, seen, old(budget.remaining))
    decreases |schemas.Keys - seen|, value, 2
  {
    ghost var total := ExpandItems(value, 0, schemas, depth, seen, budget.remaining);
    expanded := [];
    var i := 0;
    ItemsStart(total);
    while i < |value.items|
      invariant i <= |value.items|
      invariant ItemsSoFar(total, expanded, ExpandItems(value, i, schemas, depth, seen, budget.remaining))
    {
      if budget.remaining == 0 {
        expanded := expanded + [TRUNCATED];
        return;
      }
      var item := ExpandSchema(value.items[i], schemas, depth, seen, budget);
      ItemsAdvance(total, expanded, item, ExpandItems(value, i + 1, schemas, depth, seen, budget.remaining));
      expanded := expanded + [item];
      i := i + 1;
    }
    ItemsEnd(total, expanded, ExpandItems(value, i, schemas, depth, seen, budget.remaining));
  }

  /** The field loop, over the sorted keys. */
  method ExpandObject(value: Json, keys: seq<string>, schemas: Schemas, depth: int, seen: set<string>,
                      budget: ExpansionBudget)
    returns (expanded: map<string, Json>)
    requires value.Object? && forall key :: key in keys ==> key in value.fields
    modifies budget
    ensures (expanded, budget.remaining) == ExpandFields(value, keys, schemas, depth, seen, old(budget.remaining))
    decreases |schemas.Keys - seen|, value, 2
  {
    ghost var total := ExpandFields(value, keys, schemas, depth, seen, budget.remaining);
    expanded := map[];
    var i := 0;
    FieldsStart(total);
    assert keys[0..] == keys;
    while i < |keys|
      invariant i <= |keys|
      invariant FieldsSoFar(total, expanded, ExpandFields(value, keys[i..], schemas, depth, seen, budget.remaining))
    {
      FieldsStep(total, expanded, value, keys, i, schemas, depth, seen, budget.remaining);
      if budget.remaining == 0 {
        expanded := expanded[MARK := Bool(true)];
        return;
      }
      var field := ExpandOneField(value, keys[i], schemas, depth, seen, budget);
      expanded := expanded[keys[i] := field];
      i := i + 1;
    }
    FieldsEnd(total, expanded, ExpandFields(value, keys[i..], schemas, depth, seen, budget.remaining));
  }

  method ExpandOneField(value: Json, key: string, schemas: Schemas, depth: int, seen: set<string>,
                        budget: ExpansionBudget) returns (field: Json)
    requires value.Object? && key in value.fields && budget.remaining > 0
    modifies budget
    ensures (field, budget.remaining) == ExpandField(value, key, schemas, depth, seen, old(budget.remaining))
    decreases |schemas.Keys - seen|, value, 1
  {
    var child := value.fields[key];
    if key == "properties" {
      SortedKeysAreKeys(Fields(child).Keys);
      var properties := ExpandPropertyMap(child, SortedKeys(Fields(child).Keys), schemas, depth, seen, budget);
      field := Object(properties);
    } else if Nested(key) {
      field := ExpandSchema(child, schemas, depth - 1, seen, budget);
    } else {
      var _ := budget.Take();
      field := child;
    }
  }

  /** The property loop, over the sorted keys. */
  method ExpandPropertyMap(value: Json, keys: seq<string>, schemas: Schemas, depth: int, seen: set<string>,
                           budget: ExpansionBudget)
    returns (expanded: map<string, Json>)
    requires forall key :: key in keys ==> key in Fields(value)
    modifies budget
    ensures (expanded, budget.remaining) == ExpandProperties(value, keys, schemas, depth, seen, old(budget.remaining))
    decreases |schemas.Keys - seen|, value, 2
  {
    ghost var total := ExpandProperties(value, keys, schemas, depth, seen, budget.remaining);
    expanded := map[];
    var i := 0;
    FieldsStart(total);
    assert keys[0..] == keys;
    while i < |keys|
      invariant i <= |keys|
      invariant FieldsSoFar(total, expanded, ExpandProperties(value, keys[i..], schemas, depth, seen, budget.remaining))
    {
      PropertiesStep(total, expanded, value, keys, i, schemas, depth, seen, budget.remaining);
      if budget.remaining == 0 {
        expanded := expanded[MARK := TRUNCATED];
        return;
      }
      var property := ExpandSchema(Fields(value)[keys[i]], schemas, depth - 1, seen, budget);
      expanded := expanded[keys[i] := property];
      i := i + 1;
    }
    FieldsEnd(total, expanded, ExpandProperties(value, keys[i..], schemas, depth, seen, budget.remaining));
  }
}
