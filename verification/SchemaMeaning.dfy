/** What the budget-free expansion of a schema shows, place by place (schema.go). */
module SchemaMeaning {
  import opened JsonValues
  import opened SchemaRefs
  import opened SchemaExpansion
  import KeyOrder

  /** The keys under which a schema holds one schema or a list of them. */
  predicate SchemaKey(key: string) {
    key == "items" || key == "additionalProperties" || key == "oneOf" || key == "anyOf" || key == "allOf"
  }

  predicate PointsTo(v: Json, name: string) {
    FieldOf(v, "$ref") == Some(String("#/components/schemas/" + name))
  }

  lemma {:induction false} RefNamePoints(fields: map<string, Json>, name: string)
    ensures RefName(fields) == Some(name) <==> PointsTo(Object(fields), name)
  {
    var prefix := REF_PREFIX;
    assert (prefix + name)[|prefix|..] == name && prefix <= prefix + name;
    if "$ref" in fields && fields["$ref"].String? && prefix <= fields["$ref"].s {
      assert fields["$ref"].s == prefix + fields["$ref"].s[|prefix|..];
    }
  }

  // ----- no reference is left unresolved -----

  /** No schema in the tree still points to a known component, except to say that it recurs. */
  ghost predicate Resolved(v: Json, schemas: Schemas) {
    match v
    case Object(fields) =>
      && (forall name :: name in schemas && PointsTo(v, name) ==> FieldOf(v, "recursive") == Some(Bool(true)))
      && ("properties" in fields ==>
            forall name :: name in Fields(fields["properties"]) ==>
              Resolved(Fields(fields["properties"])[name], schemas))
      && forall key :: key in fields && SchemaKey(key) ==> Resolved(fields[key], schemas)
    case List(items) => forall i :: 0 <= i < |items| ==> Resolved(items[i], schemas)
    case _ => true
  }

  lemma {:induction false} MarksAreResolved(fields: map<string, Json>, schemas: Schemas)
    ensures Resolved(TRUNCATED, schemas)
    ensures "$ref" in fields ==> Resolved(Recursive(fields), schemas)
  {
    var truncated := TRUNCATED;
    assert truncated.fields.Keys == {"truncated", "reason"};
    if "$ref" in fields {
      var recursive := Recursive(fields);
      assert recursive.fields.Keys == {"$ref", "recursive"};
    }
  }

  /** How each kind of field is shown. */
  lemma {:induction false} FieldShown(value: Json, key: string, schemas: Schemas, depth: int, seen: set<string>)
    requires value.Object? && key in value.fields
    ensures var shown := FreeObject(value, schemas, depth, seen);
            && key in shown.fields
            && (SchemaKey(key) ==> shown.fields[key] == Free(value.fields[key], schemas, depth - 1, seen))
            && (!SchemaKey(key) && key != "properties" ==> shown.fields[key] == value.fields[key])
            && (key == "properties" ==>
                  var child, properties := value.fields["properties"], shown.fields["properties"];
                  && properties.Object? && properties.fields.Keys == Fields(child).Keys
                  && forall name :: name in Fields(child) ==>
                       properties.fields[name] == Free(Fields(child)[name], schemas, depth - 1, seen))
  {
  }

  lemma {:induction false} FreeIsResolved(value: Json, schemas: Schemas, depth: int, seen: set<string>)
    ensures Resolved(Free(value, schemas, depth, seen), schemas)
    decreases |schemas.Keys - seen|, value, 1
  {
    MarksAreResolved(Fields(value), schemas);
    if depth >= 0 {
      match value
      case List(items) => ListIsResolved(value, schemas, depth, seen);
      case Object(fields) =>
        var name := RefName(fields);
        if name.Some? && name.value !in seen && name.value in schemas {
          SubsetSmaller(schemas.Keys - (seen + {name.value}), schemas.Keys - seen);
          FreeIsResolved(schemas[name.value], schemas, depth, seen + {name.value});
        } else if name.None? || name.value !in seen {
          ObjectIsResolved(value, schemas, depth, seen);
        }
      case _ =>
    }
  }

  lemma {:induction false} ListIsResolved(value: Json, schemas: Schemas, depth: int, seen: set<string>)
    requires value.List? && depth >= 0
    ensures Resolved(Free(value, schemas, depth, seen), schemas)
    decreases |schemas.Keys - seen|, value, 0
  {
    forall i | 0 <= i < |value.items| ensures Resolved(Free(value.items[i], schemas, depth, seen), schemas) {
      FreeIsResolved(value.items[i], schemas, depth, seen);
    }
  }

  lemma {:induction false} ObjectIsResolved(value: Json, schemas: Schemas, depth: int, seen: set<string>)
    requires Plain(value, schemas, seen)
    ensures Resolved(FreeObject(value, schemas, depth, seen), schemas)
    decreases |schemas.Keys - seen|, value, 0
  {
    var fields, shown := value.fields, FreeObject(value, schemas, depth, seen);
    PlainPointsNowhere(value, schemas, depth, seen);
    if "properties" in fields {
      var properties := Fields(fields["properties"]);
      FieldShown(value, "properties", schemas, depth, seen);
      forall name | name in properties ensures Resolved(shown.fields["properties"].fields[name], schemas) {
        FreeIsResolved(properties[name], schemas, depth - 1, seen);
      }
    }
    forall key | key in fields && SchemaKey(key) ensures Resolved(shown.fields[key], schemas) {
      FieldShown(value, key, schemas, depth, seen);
      FreeIsResolved(fields[key], schemas, depth - 1, seen);
    }
  }

  lemma {:induction false} PlainPointsNowhere(value: Json, schemas: Schemas, depth: int, seen: set<string>)
    requires Plain(value, schemas, seen)
    ensures forall name :: name in schemas ==> !PointsTo(FreeObject(value, schemas, depth, seen), name)
  {
    if "$ref" in value.fields {
      FieldShown(value, "$ref", schemas, depth, seen);
    }
    forall name | name in schemas ensures !PointsTo(FreeObject(value, schemas, depth, seen), name) {
      RefNamePoints(value.fields, name);
    }
  }

  // ----- what is charged -----

  /** The fields that are copied as they are. */
  function Copied(keys: seq<string>): nat {
    if keys == [] then 0
    else (if keys[0] == "properties" || SchemaKey(keys[0]) then 0 else 1) + Copied(keys[1..])
  }

  /** Every schema within the depth costs a node, and so does every field copied for it. */
  lemma {:induction false} EveryNodeIsCharged(value: Json, schemas: Schemas, depth: int, seen: set<string>)
    requires depth >= 0
    ensures Cost(value, schemas, depth, seen) >= 1
    ensures Plain(value, schemas, seen) ==>
              Cost(value, schemas, depth, seen) >= 1 + Copied(KeyOrder.SortedKeys(value.fields.Keys))
    ensures value.List? ==> Cost(value, schemas, depth, seen) >= 1 + |value.items|
  {
    if Plain(value, schemas, seen) {
      KeysEnumerate(value.fields);
      FieldsAreCharged(value, KeyOrder.SortedKeys(value.fields.Keys), schemas, depth, seen);
    } else if value.List? {
      ItemsAreCharged(value, 0, schemas, depth, seen);
    }
  }

  lemma {:induction false} FieldsAreCharged(parent: Json, keys: seq<string>, schemas: Schemas, depth: int,
                                            seen: set<string>)
    requires parent.Object? && forall key :: key in keys ==> key in parent.fields
    ensures FieldsCost(parent, keys, schemas, depth, seen) >= Copied(keys)
    decreases |keys|
  {
    if keys != [] {
      FieldsAreCharged(parent, keys[1..], schemas, depth, seen);
    }
  }

  lemma {:induction false} ItemsAreCharged(parent: Json, from: nat, schemas: Schemas, depth: int, seen: set<string>)
    requires parent.List? && from <= |parent.items| && depth >= 0
    ensures ItemsCost(parent, from, schemas, depth, seen) >= |parent.items| - from
    decreases |parent.items| - from
  {
    if from < |parent.items| {
      ItemsAreCharged(parent, from + 1, schemas, depth, seen);
      assert Cost(parent.items[from], schemas, depth, seen) >= 1;
    }
  }

  // ----- what is shown where -----

  /** One step into a schema: to a property, below one of the schema keys, or to an entry of a list. */
  datatype Step = Property(name: string) | Below(key: string) | Entry(index: nat)

  /** Somewhere in the document: a schema, the depth left and the components entered on the way. */
  datatype Place = Place(value: Json, depth: int, entered: set<string>)

  predicate Recurs(place: Place) {
    exists name :: name in place.entered && PointsTo(place.value, name)
  }

  /** Follows references until there is none, it is unknown, or it recurs. */
  function Chase(schemas: Schemas, place: Place): Place
    decreases |schemas.Keys - place.entered|
  {
    var name := RefName(Fields(place.value));
    if place.depth >= 0 && name.Some? && name.value in schemas && name.value !in place.entered then
      SubsetSmaller(schemas.Keys - (place.entered + {name.value}), schemas.Keys - place.entered);
      Chase(schemas, Place(schemas[name.value], place.depth, place.entered + {name.value}))
    else place
  }

  function Child(place: Place, step: Step): Option<Place> {
    match step
    case Property(name) =>
      var properties := if "properties" in Fields(place.value) then Fields(place.value.fields["properties"]) else map[];
      if name in properties then Some(Place(properties[name], place.depth - 1, place.entered)) else None
    case Below(key) =>
      if SchemaKey(key) && key in Fields(place.value)
      then Some(Place(place.value.fields[key], place.depth - 1, place.entered)) else None
    case Entry(i) =>
      if place.value.List? && i < |place.value.items|
      then Some(place.(value := place.value.items[i])) else None
  }

  /** Where the steps lead in the document. */
  function Walk(schemas: Schemas, place: Place, steps: seq<Step>): Option<Place>
    decreases |steps|
  {
    var here := Chase(schemas, place);
    if steps == [] then Some(here)
    else if here.depth < 0 || Recurs(here) then None
    else
      match Child(here, steps[0])
      case None => None
      case Some(next) => Walk(schemas, next, steps[1..])
  }

  /** Where the same steps lead in the result. */
  function Reach(result: Json, steps: seq<Step>): Option<Json>
    decreases |steps|
  {
    if steps == [] then Some(result)
    else
      match Shown(result, steps[0])
      case None => None
      case Some(next) => Reach(next, steps[1..])
  }

  function Shown(result: Json, step: Step): Option<Json> {
    match step
    case Property(name) => ValueAt(result, ["properties", name])
    case Below(key) => FieldOf(result, key)
    case Entry(i) => if result.List? && i < |result.items| then Some(result.items[i]) else None
  }

  /** What is shown for a place: a truncation below the depth, a mark where it recurs, and otherwise the schema itself,
      with every key it has and every field that holds no schema. */
  ghost predicate Shows(result: Json, place: Place) {
    if place.depth < 0 then
      result == Object(map["truncated" := Bool(true), "reason" := String("schema expansion budget reached")])
    else if Recurs(place) then
      result == Object(map["$ref" := place.value.fields["$ref"], "recursive" := Bool(true)])
    else
      match place.value
      case Object(fields) => result.Object? && ShowsFields(result.fields, fields)
      case List(items) => result.List? && |result.items| == |items|
      case _ => result == place.value
  }

  ghost predicate ShowsFields(shown: map<string, Json>, fields: map<string, Json>) {
    && shown.Keys == fields.Keys
    && (forall key :: key in fields && key != "properties" && !SchemaKey(key) ==> shown[key] == fields[key])
    && ("properties" in fields ==>
          shown["properties"].Object? && shown["properties"].fields.Keys == Fields(fields["properties"]).Keys)
  }

  function FreeAt(schemas: Schemas, place: Place): Json { Free(place.value, schemas, place.depth, place.entered) }

  lemma {:induction false} RecursMeans(place: Place)
    ensures Recurs(place) <==>
            place.value.Object? && RefName(place.value.fields).Some? &&
            RefName(place.value.fields).value in place.entered
  {
    if place.value.Object? {
      forall name ensures RefName(place.value.fields) == Some(name) <==> PointsTo(place.value, name) {
        RefNamePoints(place.value.fields, name);
      }
    }
  }

  /** The chase ends where nothing more is to be followed, and what is shown is what is shown there. */
  lemma {:induction false} ChaseMeans(schemas: Schemas, place: Place)
    ensures var here := Chase(schemas, place);
            && FreeAt(schemas, here) == FreeAt(schemas, place)
            && (here.depth < 0 || Recurs(here) || !here.value.Object? || Plain(here.value, schemas, here.entered))
    decreases |schemas.Keys - place.entered|
  {
    RecursMeans(place);
    var name := RefName(Fields(place.value));
    if place.depth >= 0 && name.Some? && name.value in schemas && name.value !in place.entered {
      SubsetSmaller(schemas.Keys - (place.entered + {name.value}), schemas.Keys - place.entered);
      ChaseMeans(schemas, Place(schemas[name.value], place.depth, place.entered + {name.value}));
    }
  }

  lemma {:induction false} ShowsHere(schemas: Schemas, here: Place)
    requires here.depth < 0 || Recurs(here) || !here.value.Object? || Plain(here.value, schemas, here.entered)
    ensures Shows(FreeAt(schemas, here), here)
  {
    RecursMeans(here);
    if here.depth >= 0 && !Recurs(here) && here.value.Object? {
      var shown := FreeObject(here.value, schemas, here.depth, here.entered).fields;
      assert shown.Keys == here.value.fields.Keys;
      forall key | key in here.value.fields
        ensures key != "properties" && !SchemaKey(key) ==> shown[key] == here.value.fields[key]
        ensures key == "properties" ==>
                  shown[key].Object? && shown[key].fields.Keys == Fields(here.value.fields[key]).Keys
      {
        FieldShown(here.value, key, schemas, here.depth, here.entered);
      }
    }
  }

  lemma {:induction false} PropertyIsAt(result: Json, name: string)
    ensures ValueAt(result, ["properties", name]) ==
            if "properties" in Fields(result) then FieldOf(result.fields["properties"], name) else None
  {
    var keys := ["properties", name];
    assert keys[1..] == [name] && [name][1..] == [];
    if "properties" in Fields(result) {
      assert ValueAt(result.fields["properties"], [name]) == FieldOf(result.fields["properties"], name);
    }
  }

  lemma {:induction false} StepShows(schemas: Schemas, here: Place, step: Step)
    requires here.depth >= 0 && !Recurs(here) && (here.value.Object? ==> Plain(here.value, schemas, here.entered))
    requires Child(here, step).Some?
    ensures Shown(FreeAt(schemas, here), step) == Some(FreeAt(schemas, Child(here, step).value))
  {
    match step
    case Property(name) =>
      FieldShown(here.value, "properties", schemas, here.depth, here.entered);
      PropertyIsAt(FreeAt(schemas, here), name);
    case Below(key) => FieldShown(here.value, key, schemas, here.depth, here.entered);
    case Entry(i) =>
  }

  /** Wherever steps lead in the document, through references and however deep, the same steps lead in the budget-free
      expansion to what that place shows. */
  lemma {:induction false} FreeShowsTheDocument(schemas: Schemas, place: Place, steps: seq<Step>)
    requires Walk(schemas, place, steps).Some?
    ensures var result := Reach(Free(place.value, schemas, place.depth, place.entered), steps);
            result.Some? && Shows(result.value, Walk(schemas, place, steps).value)
    decreases |steps|
  {
    var here := Chase(schemas, place);
    ChaseMeans(schemas, place);
    if steps == [] {
      ShowsHere(schemas, here);
    } else {
      StepShows(schemas, here, steps[0]);
      FreeShowsTheDocument(schemas, Child(here, steps[0]).value, steps[1..]);
    }
  }

  /** A describe of a schema within the budget: no known reference is left, and every place is shown. */
  lemma {:induction false} DescribeShowsTheDocument(value: Json, schemas: Schemas, depth: int, steps: seq<Step>)
    requires Cost(value, schemas, depth, {}) < 10_000
    ensures var result := Expand(value, schemas, depth, {}, 10_000).0;
            && Resolved(result, schemas)
            && (Walk(schemas, Place(value, depth, {}), steps).Some? ==>
                  && Reach(result, steps).Some?
                  && Shows(Reach(result, steps).value, Walk(schemas, Place(value, depth, {}), steps).value))
  {
    DescribeIsBoundedAndHonest(value, schemas, depth);
    FreeIsResolved(value, schemas, depth, {});
    if Walk(schemas, Place(value, depth, {}), steps).Some? {
      FreeShowsTheDocument(schemas, Place(value, depth, {}), steps);
    }
  }
}
