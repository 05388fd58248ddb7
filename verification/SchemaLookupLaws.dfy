/** Property lookup in the terms of the document: where it looks, and what it returns (schemaProperty in schema.go). */
module SchemaLookupLaws {
  import opened JsonValues
  import opened SchemaRefs
  import opened SchemaLookup

  predicate Found(current: Json, name: string, schemas: Schemas) {
    Lookup(current, name, schemas, {}).Some?
  }

  /** The schema itself has the property, as an object. */
  predicate DeclaresHere(current: Json, name: string) {
    var property := ValueAt(current, ["properties", name]);
    property.Some? && property.value.Object?
  }

  /** The schema refers to this component. */
  predicate RefersTo(current: Json, schemas: Schemas, component: string) {
    && FieldOf(current, "$ref") == Some(String("#/components/schemas/" + component))
    && component in schemas && schemas[component].Object?
  }

  /** The schema has this branch. */
  predicate HasBranch(current: Json, key: string, i: nat) {
    && FieldOf(current, key).Some? && FieldOf(current, key).value.List?
    && i < |FieldOf(current, key).value.items| && FieldOf(current, key).value.items[i].Object?
  }

  function BranchAt(current: Json, key: string, i: nat): Json
    requires HasBranch(current, key, i)
  {
    current.fields[key].items[i]
  }

  predicate Combines(key: string) { key == "allOf" || key == "oneOf" || key == "anyOf" }

  lemma {:induction false} DeclaredMeans(current: Json, name: string)
    ensures Declared(current, name) ==
            if DeclaresHere(current, name) then ValueAt(current, ["properties", name]) else None
  {
    var keys := ["properties", name];
    assert keys[1..] == [name] && [name][1..] == [];
    if "properties" in Fields(current) {
      assert ValueAt(current.fields["properties"], [name]) == FieldOf(current.fields["properties"], name);
    }
  }

  lemma {:induction false} FollowMeans(current: Json, schemas: Schemas, component: string)
    ensures var reference := "#/components/schemas/" + component;
            After(schemas, current, Follow(reference)) ==
            if RefersTo(current, schemas, component) then Some(schemas[component]) else None
  {
    var prefix := REF_PREFIX;
    assert (prefix + component)[|prefix|..] == component && prefix <= prefix + component;
  }

  lemma {:induction false} FollowedComponent(current: Json, schemas: Schemas, reference: string)
    returns (component: string)
    requires After(schemas, current, Follow(reference)).Some?
    ensures reference == "#/components/schemas/" + component && RefersTo(current, schemas, component)
  {
    var prefix := REF_PREFIX;
    component := reference[|prefix|..];
    assert reference == prefix + component;
  }

  lemma {:induction false} BranchMeans(current: Json, schemas: Schemas, key: string, i: nat)
    ensures After(schemas, current, Branch(key, i)) ==
            if Combines(key) && HasBranch(current, key, i) then Some(BranchAt(current, key, i)) else None
  {
    var keys := COMBINATORS;
    assert key in keys <==> key == keys[0] || key == keys[1] || key == keys[2];
  }

  lemma {:induction false} FoundFurther(current: Json, name: string, schemas: Schemas, step: Step, next: Json)
    requires After(schemas, current, step) == Some(next) && Found(next, name, schemas)
    ensures Found(current, name, schemas)
  {
    LookupIsReachability(next, name, schemas);
    var steps :| Finds(schemas, next, name, steps);
    WalkFurther(schemas, current, step, next, name, steps);
    LookupIsReachability(current, name, schemas);
  }

  /** Cutting cycles is invisible: a property is found exactly if the schema has it, its component has it, or one of its
      branches under allOf, oneOf or anyOf has it, each looked up afresh. */
  lemma {:induction false} FoundExactly(current: Json, name: string, schemas: Schemas)
    ensures Found(current, name, schemas) <==>
            || DeclaresHere(current, name)
            || (exists component ::
                  RefersTo(current, schemas, component) && Found(schemas[component], name, schemas))
            || (exists key, i: nat ::
                  Combines(key) && HasBranch(current, key, i) && Found(BranchAt(current, key, i), name, schemas))
  {
    DeclaredMeans(current, name);
    if Found(current, name, schemas) && !DeclaresHere(current, name) {
      LookupIsReachability(current, name, schemas);
      var steps :| Finds(schemas, current, name, steps);
      var next := After(schemas, current, steps[0]).value;
      assert Finds(schemas, next, name, steps[1..]);
      LookupIsReachability(next, name, schemas);
      match steps[0]
      case Follow(reference) =>
        var component := FollowedComponent(current, schemas, reference);
        FollowMeans(current, schemas, component);
      case Branch(key, i) => BranchMeans(current, schemas, key, i);
    }
    if component :| RefersTo(current, schemas, component) && Found(schemas[component], name, schemas) {
      FollowMeans(current, schemas, component);
      FoundFurther(current, name, schemas, Follow("#/components/schemas/" + component), schemas[component]);
    }
    if key, i: nat :| Combines(key) && HasBranch(current, key, i) && Found(BranchAt(current, key, i), name, schemas) {
      BranchMeans(current, schemas, key, i);
      FoundFurther(current, name, schemas, Branch(key, i), BranchAt(current, key, i));
    }
  }

  // ----- what is returned -----

  /** The parts are the results of exactly the branches that have the property, in the order of the branches. */
  ghost predicate Gathers(indices: seq<nat>, parts: seq<Json>, current: Json, key: string, upTo: nat, name: string,
                          schemas: Schemas)
  {
    && |indices| == |parts|
    && (forall k, l :: 0 <= k < l < |indices| ==> indices[k] < indices[l])
    && (forall k :: 0 <= k < |parts| ==>
          && indices[k] < upTo && HasBranch(current, key, indices[k])
          && Lookup(BranchAt(current, key, indices[k]), name, schemas, {}) == Some(parts[k]))
    && forall i: nat :: i < upTo && HasBranch(current, key, i) && Found(BranchAt(current, key, i), name, schemas) ==>
         i in indices
  }

  lemma {:induction false} GatherNext(indices: seq<nat>, parts: seq<Json>, current: Json, key: string, upTo: nat,
                                      name: string, schemas: Schemas)
    requires Gathers(indices, parts, current, key, upTo, name, schemas)
    ensures if HasBranch(current, key, upTo) && Found(BranchAt(current, key, upTo), name, schemas) then
              var part := Lookup(BranchAt(current, key, upTo), name, schemas, {}).value;
              Gathers(indices + [upTo], parts + [part], current, key, upTo + 1, name, schemas)
            else Gathers(indices, parts, current, key, upTo + 1, name, schemas)
  {
  }

  lemma {:induction false} MatchesGather(current: Json, key: string, upTo: nat, name: string, schemas: Schemas)
    returns (indices: seq<nat>)
    requires upTo <= |Branches(current, key)|
    ensures Gathers(indices, Matches(current, key, upTo, name, schemas, {}), current, key, upTo, name, schemas)
  {
    if upTo == 0 {
      indices := [];
    } else {
      var branch := Branches(current, key)[upTo - 1];
      indices := MatchesGather(current, key, upTo - 1, name, schemas);
      GatherNext(indices, Matches(current, key, upTo - 1, name, schemas, {}), current, key, upTo - 1, name, schemas);
      if branch.Object? && Found(branch, name, schemas) {
        indices := indices + [upTo - 1];
      }
    }
  }

  /** One result is returned as it is, several under their combinator. */
  function Union(key: string, parts: seq<Json>): Json
    requires parts != []
  {
    if |parts| == 1 then parts[0] else Object(map[key := List(parts)])
  }

  predicate NoBranchFinds(current: Json, key: string, name: string, schemas: Schemas) {
    Matches(current, key, |Branches(current, key)|, name, schemas, {}) == []
  }

  lemma {:induction false} NoBranchMeans(current: Json, key: string, name: string, schemas: Schemas, i: nat)
    requires NoBranchFinds(current, key, name, schemas) && HasBranch(current, key, i)
    ensures !Found(BranchAt(current, key, i), name, schemas)
  {
    var indices := MatchesGather(current, key, |Branches(current, key)|, name, schemas);
  }

  /** A schema's own property is returned as it stands.  Without one, and without one behind its reference, the result
      is gathered from all the branches of the first combinator, in the order allOf, oneOf, anyOf, that has any. */
  lemma {:induction false} LookupReturns(current: Json, name: string, schemas: Schemas)
    returns (key: string, indices: seq<nat>, parts: seq<Json>)
    requires Found(current, name, schemas)
    ensures DeclaresHere(current, name) ==>
              Lookup(current, name, schemas, {}) == ValueAt(current, ["properties", name])
    ensures !DeclaresHere(current, name) && LookupReference(current, name, schemas, {}).None? ==>
              && Combines(key) && parts != [] && Lookup(current, name, schemas, {}) == Some(Union(key, parts))
              && Gathers(indices, parts, current, key, |Branches(current, key)|, name, schemas)
              && (key != "allOf" ==> NoBranchFinds(current, "allOf", name, schemas))
              && (key == "anyOf" ==> NoBranchFinds(current, "oneOf", name, schemas))
  {
    DeclaredMeans(current, name);
    key, indices, parts := "", [], [];
    if !DeclaresHere(current, name) && LookupReference(current, name, schemas, {}).None? {
      CombinatorsInOrder(current, name, schemas);
      key := if !NoBranchFinds(current, "allOf", name, schemas) then "allOf"
             else if !NoBranchFinds(current, "oneOf", name, schemas) then "oneOf" else "anyOf";
      parts := Matches(current, key, |Branches(current, key)|, name, schemas, {});
      indices := MatchesGather(current, key, |Branches(current, key)|, name, schemas);
    }
  }

  /** The component a schema refers to comes before its branches. */
  lemma {:induction false} ReferenceComesFirst(current: Json, name: string, schemas: Schemas, component: string)
    requires RefersTo(current, schemas, component) && !DeclaresHere(current, name)
    ensures LookupReference(current, name, schemas, {}).Some? <==> Found(schemas[component], name, schemas)
    ensures Found(schemas[component], name, schemas) ==>
              Lookup(current, name, schemas, {}) ==
              Lookup(schemas[component], name, schemas, {"#/components/schemas/" + component})
  {
    var prefix, target := REF_PREFIX, schemas[component];
    var reference := prefix + component;
    assert reference[|prefix|..] == component && prefix <= reference;
    DeclaredMeans(current, name);
    LookupIsReachability(target, name, schemas);
    if steps :| Finds(schemas, target, name, steps) {
      var cut := CutCycle(schemas, reference, name, steps, {});
      ReachableIsFound(target, name, schemas, {} + {reference}, cut);
    }
    if Lookup(target, name, schemas, {} + {reference}).Some? {
      var steps := FoundIsReachable(target, name, schemas, {} + {reference});
    }
    assert {} + {reference} == {reference};
  }

  lemma {:induction false} CombinatorsInOrder(current: Json, name: string, schemas: Schemas)
    ensures var (all, one, any) := (Matches(current, "allOf", |Branches(current, "allOf")|, name, schemas, {}),
                                    Matches(current, "oneOf", |Branches(current, "oneOf")|, name, schemas, {}),
                                    Matches(current, "anyOf", |Branches(current, "anyOf")|, name, schemas, {}));
            LookupCombinators(current, 0, name, schemas, {}) ==
            if all != [] then Some(Union("allOf", all))
            else if one != [] then Some(Union("oneOf", one))
            else if any != [] then Some(Union("anyOf", any))
            else None
  {
    assert LookupCombinators(current, 3, name, schemas, {}) == None;
    assert COMBINATORS[2] == "anyOf" && COMBINATORS[1] == "oneOf" && COMBINATORS[0] == "allOf";
    var third := LookupCombinators(current, 2, name, schemas, {});
    var second := LookupCombinators(current, 1, name, schemas, {});
  }
}
