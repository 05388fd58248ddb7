/** Property lookup through $ref, allOf, oneOf and anyOf (schemaProperty in schema.go). */
module SchemaLookup {
  import opened JsonValues
  import opened SchemaRefs

  const COMBINATORS: seq<string> := ["allOf", "oneOf", "anyOf"]

  /** The reference a schema carries, if it has the expected form. */
  function Reference(current: Json): Option<string> {
    match FieldOf(current, "$ref")
    case Some(String(reference)) => if REF_PREFIX <= reference then Some(reference) else None
    case _ => None
  }

  function Target(schemas: Schemas, reference: string): Option<Json> {
    if REF_PREFIX <= reference && reference[|REF_PREFIX|..] in schemas && schemas[reference[|REF_PREFIX|..]].Object?
    then Some(schemas[reference[|REF_PREFIX|..]]) else None
  }

  /** A property the schema itself declares as an object. */
  function Declared(current: Json, name: string): Option<Json> {
    match FieldOf(current, "properties")
    case Some(properties) =>
      (match FieldOf(properties, name) case Some(Object(fields)) => Some(Object(fields)) case _ => None)
    case None => None
  }

  function Branches(current: Json, combinator: string): seq<Json> {
    match FieldOf(current, combinator)
    case Some(List(items)) => items
    case _ => []
  }

  // ----- reachability: the specification -----

  datatype Step = Follow(reference: string) | Branch(combinator: string, index: nat)

  function After(schemas: Schemas, current: Json, step: Step): Option<Json> {
    match step
    case Follow(reference) => if Reference(current) == Some(reference) then Target(schemas, reference) else None
    case Branch(combinator, index) =>
      var branches := Branches(current, combinator);
      if combinator in COMBINATORS && index < |branches| && branches[index].Object? then Some(branches[index]) else None
  }

  function Walk(schemas: Schemas, current: Json, steps: seq<Step>): Option<Json>
    decreases |steps|
  {
    if steps == [] then Some(current)
    else
      match After(schemas, current, steps[0])
      case None => None
      case Some(next) => Walk(schemas, next, steps[1..])
  }

  /** These steps lead to a schema that itself declares the property. */
  predicate Finds(schemas: Schemas, current: Json, name: string, steps: seq<Step>) {
    var reached := Walk(schemas, current, steps);
    reached.Some? && Declared(reached.value, name).Some?
  }

  // ----- the search -----

  ghost function Unseen(schemas: Schemas, seen: set<string>): nat {
    |set name | name in schemas && REF_PREFIX + name !in seen|
  }

  lemma {:induction false} SeeingShrinks(schemas: Schemas, seen: set<string>, reference: string)
    requires Target(schemas, reference).Some? && reference !in seen
    ensures Unseen(schemas, seen + {reference}) < Unseen(schemas, seen)
  {
    var name := reference[|REF_PREFIX|..];
    assert reference == REF_PREFIX + name;
    var before := set n | n in schemas && REF_PREFIX + n !in seen;
    var after := set n | n in schemas && REF_PREFIX + n !in seen + {reference};
    assert name in before && name !in after;
    SubsetSmaller(after, before);
  }

  /** schemaProperty with the references on the current path; None is "not found". */
  function Lookup(current: Json, name: string, schemas: Schemas, seen: set<string>): Option<Json>
    decreases Unseen(schemas, seen), current, 3, 0
  {
    if Declared(current, name).Some? then Declared(current, name)
    else
      var followed := LookupReference(current, name, schemas, seen);
      if followed.Some? then followed else LookupCombinators(current, 0, name, schemas, seen)
  }

  function LookupReference(current: Json, name: string, schemas: Schemas, seen: set<string>): Option<Json>
    decreases Unseen(schemas, seen), current, 2, 0
  {
    var reference := Reference(current);
    if reference.Some? && reference.value !in seen && Target(schemas, reference.value).Some? then
      SeeingShrinks(schemas, seen, reference.value);
      Lookup(Target(schemas, reference.value).value, name, schemas, seen + {reference.value})
    else None
  }

  function LookupCombinators(current: Json, from: nat, name: string, schemas: Schemas, seen: set<string>): Option<Json>
    requires from <= |COMBINATORS|
    decreases Unseen(schemas, seen), current, 2, |COMBINATORS| - from
  {
    if from == |COMBINATORS| then None
    else
      var matches := Matches(current, COMBINATORS[from], |Branches(current, COMBINATORS[from])|, name, schemas, seen);
      if matches == [] then LookupCombinators(current, from + 1, name, schemas, seen)
      else if |matches| == 1 then Some(matches[0])
      else Some(Object(map[COMBINATORS[from] := List(matches)]))
  }

  /** What the first branches of a combinator find. */
  function Matches(current: Json, combinator: string, upTo: nat, name: string, schemas: Schemas,
                   seen: set<string>): seq<Json>
    requires upTo <= |Branches(current, combinator)|
    decreases Unseen(schemas, seen), current, 1, upTo
  {
    if upTo == 0 then []
    else
      var earlier := Matches(current, combinator, upTo - 1, name, schemas, seen);
      var branch := Branches(current, combinator)[upTo - 1];
      if !branch.Object? then earlier
      else
        match Lookup(branch, name, schemas, seen)
        case Some(property) => earlier + [property]
        case None => earlier
  }

  // ----- found means reachable -----

  lemma {:induction false} WalkFurther(schemas: Schemas, current: Json, step: Step, next: Json, name: string,
                                       steps: seq<Step>)
    requires After(schemas, current, step) == Some(next) && Finds(schemas, next, name, steps)
    ensures Finds(schemas, current, name, [step] + steps)
  {
    assert ([step] + steps)[1..] == steps;
  }

  lemma {:induction false} FoundIsReachable(current: Json, name: string, schemas: Schemas, seen: set<string>)
    returns (steps: seq<Step>)
    requires Lookup(current, name, schemas, seen).Some?
    ensures Finds(schemas, current, name, steps)
    decreases Unseen(schemas, seen), current, 3
  {
    if Declared(current, name).Some? {
      steps := [];
    } else if LookupReference(current, name, schemas, seen).Some? {
      var reference := Reference(current).value;
      SeeingShrinks(schemas, seen, reference);
      var target := Target(schemas, reference).value;
      var rest := FoundIsReachable(target, name, schemas, seen + {reference});
      WalkFurther(schemas, current, Follow(reference), target, name, rest);
      steps := [Follow(reference)] + rest;
    } else {
      steps := CombinatorIsReachable(current, 0, name, schemas, seen);
    }
  }

  lemma {:induction false} CombinatorIsReachable(current: Json, from: nat, name: string, schemas: Schemas,
                                                 seen: set<string>) returns (steps: seq<Step>)
    requires from <= |COMBINATORS| && LookupCombinators(current, from, name, schemas, seen).Some?
    ensures Finds(schemas, current, name, steps)
    decreases Unseen(schemas, seen), current, 2, |COMBINATORS| - from
  {
    var combinator := COMBINATORS[from];
    if Matches(current, combinator, |Branches(current, combinator)|, name, schemas, seen) == [] {
      steps := CombinatorIsReachable(current, from + 1, name, schemas, seen);
    } else {
      steps := MatchIsReachable(current, combinator, |Branches(current, combinator)|, name, schemas, seen);
    }
  }

  lemma {:induction false} MatchIsReachable(current: Json, combinator: string, upTo: nat, name: string,
                                            schemas: Schemas, seen: set<string>) returns (steps: seq<Step>)
    requires combinator in COMBINATORS && upTo <= |Branches(current, combinator)|
    requires Matches(current, combinator, upTo, name, schemas, seen) != []
    ensures Finds(schemas, current, name, steps)
    decreases Unseen(schemas, seen), current, 1, upTo
  {
    var branch := Branches(current, combinator)[upTo - 1];
    if branch.Object? && Lookup(branch, name, schemas, seen).Some? {
      var rest := FoundIsReachable(branch, name, schemas, seen);
      WalkFurther(schemas, current, Branch(combinator, upTo - 1), branch, name, rest);
      steps := [Branch(combinator, upTo - 1)] + rest;
    } else {
      steps := MatchIsReachable(current, combinator, upTo - 1, name, schemas, seen);
    }
  }

  // ----- reachable means found: cutting cycles loses nothing -----

  predicate Avoids(steps: seq<Step>, seen: set<string>) {
    forall i :: 0 <= i < |steps| && steps[i].Follow? ==> steps[i].reference !in seen
  }

  /** Any walk that starts at a reference's target can be cut so that it does not follow that reference again. */
  lemma {:induction false} CutCycle(schemas: Schemas, reference: string, name: string, steps: seq<Step>,
                                    seen: set<string>) returns (cut: seq<Step>)
    requires Target(schemas, reference).Some? && Finds(schemas, Target(schemas, reference).value, name, steps)
    requires Avoids(steps, seen)
    ensures Finds(schemas, Target(schemas, reference).value, name, cut)
    ensures Avoids(cut, seen + {reference}) && |cut| <= |steps|
    decreases |steps|
  {
    if exists i :: 0 <= i < |steps| && steps[i] == Follow(reference) {
      var i :| 0 <= i < |steps| && steps[i] == Follow(reference);
      WalkSuffix(schemas, Target(schemas, reference).value, steps, i);
      cut := CutCycle(schemas, reference, name, steps[i + 1..], seen);
    } else {
      cut := steps;
    }
  }

  /** After following a reference, wherever one was, one is at its target. */
  lemma {:induction false} WalkSuffix(schemas: Schemas, current: Json, steps: seq<Step>, i: nat)
    requires i < |steps| && steps[i].Follow? && Walk(schemas, current, steps).Some?
    ensures Target(schemas, steps[i].reference).Some?
    ensures Walk(schemas, Target(schemas, steps[i].reference).value, steps[i + 1..]) == Walk(schemas, current, steps)
    decreases |steps|
  {
    if i > 0 {
      var next := After(schemas, current, steps[0]).value;
      WalkSuffix(schemas, next, steps[1..], i - 1);
      assert steps[1..][i - 1] == steps[i] && steps[1..][i..] == steps[i + 1..];
    }
  }

  lemma {:induction false} ReachableIsFound(current: Json, name: string, schemas: Schemas, seen: set<string>,
                                            steps: seq<Step>)
    requires Finds(schemas, current, name, steps) && Avoids(steps, seen)
    ensures Lookup(current, name, schemas, seen).Some?
    decreases |steps|
  {
    if steps != [] {
      var next := After(schemas, current, steps[0]).value;
      match steps[0]
      case Follow(reference) =>
        var cut := CutCycle(schemas, reference, name, steps[1..], seen);
        ReachableIsFound(next, name, schemas, seen + {reference}, cut);
      case Branch(combinator, index) =>
        ReachableIsFound(next, name, schemas, seen, steps[1..]);
        MatchIsKept(current, combinator, |Branches(current, combinator)|, index, name, schemas, seen);
        CombinatorIsKept(current, 0, combinator, name, schemas, seen);
    }
  }

  lemma {:induction false} MatchIsKept(current: Json, combinator: string, upTo: nat, index: nat, name: string,
                                       schemas: Schemas, seen: set<string>)
    requires index < upTo <= |Branches(current, combinator)| && Branches(current, combinator)[index].Object?
    requires Lookup(Branches(current, combinator)[index], name, schemas, seen).Some?
    ensures Matches(current, combinator, upTo, name, schemas, seen) != []
    decreases upTo
  {
    if index < upTo - 1 {
      MatchIsKept(current, combinator, upTo - 1, index, name, schemas, seen);
    }
  }

  lemma {:induction false} CombinatorIsKept(current: Json, from: nat, combinator: string, name: string,
                                            schemas: Schemas, seen: set<string>)
    requires from <= |COMBINATORS| && combinator in COMBINATORS[from..]
    requires Matches(current, combinator, |Branches(current, combinator)|, name, schemas, seen) != []
    ensures LookupCombinators(current, from, name, schemas, seen).Some?
    decreases |COMBINATORS| - from
  {
    if COMBINATORS[from] != combinator {
      CombinatorIsKept(current, from + 1, combinator, name, schemas, seen);
    }
  }

  /** Lookup succeeds exactly when some schema reachable by any walk, cyclic or not, declares the property. */
  lemma {:induction false} LookupIsReachability(current: Json, name: string, schemas: Schemas)
    ensures Lookup(current, name, schemas, {}).Some? <==> exists steps :: Finds(schemas, current, name, steps)
  {
    if Lookup(current, name, schemas, {}).Some? {
      var steps := FoundIsReachable(current, name, schemas, {});
    }
    if steps :| Finds(schemas, current, name, steps) {
      ReachableIsFound(current, name, schemas, {}, steps);
    }
  }

  // ----- what is returned -----

  ghost predicate DeclaredAlong(schemas: Schemas, current: Json, name: string, property: Json, steps: seq<Step>) {
    Finds(schemas, current, name, steps) && Declared(Walk(schemas, current, steps).value, name) == Some(property)
  }

  /** A result is a property some reachable schema declares, or one combinator over several such results. */
  ghost predicate Genuine(schemas: Schemas, current: Json, name: string, property: Json)
    decreases property
  {
    || (exists steps :: DeclaredAlong(schemas, current, name, property, steps))
    || (exists combinator :: combinator in COMBINATORS && GenuineUnion(schemas, current, name, property, combinator))
  }

  ghost predicate GenuineUnion(schemas: Schemas, current: Json, name: string, property: Json, combinator: string)
    decreases property, 0
  {
    && property.Object? && property.fields.Keys == {combinator} && property.fields[combinator].List?
    && var parts := property.fields[combinator].items;
       |parts| >= 2 && forall i :: 0 <= i < |parts| ==> Genuine(schemas, current, name, parts[i])
  }

  lemma {:induction false} GenuineFurther(schemas: Schemas, current: Json, step: Step, next: Json, name: string,
                                          property: Json)
    requires After(schemas, current, step) == Some(next) && Genuine(schemas, next, name, property)
    ensures Genuine(schemas, current, name, property)
    decreases property
  {
    if steps :| DeclaredAlong(schemas, next, name, property, steps) {
      WalkFurther(schemas, current, step, next, name, steps);
      assert ([step] + steps)[1..] == steps;
      assert DeclaredAlong(schemas, current, name, property, [step] + steps);
    } else {
      var combinator :| combinator in COMBINATORS && GenuineUnion(schemas, next, name, property, combinator);
      var parts := property.fields[combinator].items;
      forall i | 0 <= i < |parts| ensures Genuine(schemas, current, name, parts[i]) {
        GenuineFurther(schemas, current, step, next, name, parts[i]);
      }
      assert GenuineUnion(schemas, current, name, property, combinator);
    }
  }

  lemma {:induction false} LookupIsGenuine(current: Json, name: string, schemas: Schemas, seen: set<string>)
    requires Lookup(current, name, schemas, seen).Some?
    ensures Genuine(schemas, current, name, Lookup(current, name, schemas, seen).value)
    decreases Unseen(schemas, seen), current, 3
  {
    if Declared(current, name).Some? {
      assert DeclaredAlong(schemas, current, name, Declared(current, name).value, []);
    } else if LookupReference(current, name, schemas, seen).Some? {
      var reference := Reference(current).value;
      SeeingShrinks(schemas, seen, reference);
      var target := Target(schemas, reference).value;
      LookupIsGenuine(target, name, schemas, seen + {reference});
      GenuineFurther(schemas, current, Follow(reference), target, name, Lookup(current, name, schemas, seen).value);
    } else {
      CombinatorsAreGenuine(current, 0, name, schemas, seen);
    }
  }

  lemma {:induction false} CombinatorsAreGenuine(current: Json, from: nat, name: string, schemas: Schemas,
                                                 seen: set<string>)
    requires from <= |COMBINATORS| && LookupCombinators(current, from, name, schemas, seen).Some?
    ensures Genuine(schemas, current, name, LookupCombinators(current, from, name, schemas, seen).value)
    decreases Unseen(schemas, seen), current, 2, |COMBINATORS| - from
  {
    var combinator := COMBINATORS[from];
    var matches := Matches(current, combinator, |Branches(current, combinator)|, name, schemas, seen);
    if matches == [] {
      CombinatorsAreGenuine(current, from + 1, name, schemas, seen);
    } else if |matches| == 1 {
      MatchIsGenuine(current, combinator, |Branches(current, combinator)|, 0, name, schemas, seen);
    } else {
      var union := Object(map[combinator := List(matches)]);
      assert union.fields[combinator].items == matches;
      forall i | 0 <= i < |matches| ensures Genuine(schemas, current, name, matches[i]) {
        MatchIsGenuine(current, combinator, |Branches(current, combinator)|, i, name, schemas, seen);
      }
      assert GenuineUnion(schemas, current, name, union, combinator);
    }
  }

  lemma {:induction false} MatchIsGenuine(current: Json, combinator: string, upTo: nat, i: nat, name: string,
                                          schemas: Schemas, seen: set<string>)
    requires combinator in COMBINATORS && upTo <= |Branches(current, combinator)|
    requires i < |Matches(current, combinator, upTo, name, schemas, seen)|
    ensures Genuine(schemas, current, name, Matches(current, combinator, upTo, name, schemas, seen)[i])
    decreases Unseen(schemas, seen), current, 1, upTo
  {
    if i < |Matches(current, combinator, upTo - 1, name, schemas, seen)| {
      MatchIsGenuine(current, combinator, upTo - 1, i, name, schemas, seen);
    } else {
      var branch := Branches(current, combinator)[upTo - 1];
      LookupIsGenuine(branch, name, schemas, seen);
      GenuineFurther(schemas, current, Branch(combinator, upTo - 1), branch, name,
                     Lookup(branch, name, schemas, seen).value);
    }
  }

  // ----- the source's search over a shared, mutable seen set -----

  class SeenRefs {
    var refs: set<string>

    constructor ()
      ensures refs == {}
    {
      refs := {};
    }
  }

  /** Every call leaves the shared set exactly as it found it. */
  method SchemaProperty(current: Json, name: string, schemas: Schemas, seen: SeenRefs) returns (property: Option<Json>)
    modifies seen
    ensures seen.refs == old(seen.refs)
    ensures property == Lookup(current, name, schemas, old(seen.refs))
    decreases Unseen(schemas, seen.refs), current, 3
  {
    if Declared(current, name).Some? {
      return Declared(current, name);
    }
    var reference := Reference(current);
    if reference.Some? && reference.value !in seen.refs {
      seen.refs := seen.refs + {reference.value};
      if Target(schemas, reference.value).Some? {
        SeeingShrinks(schemas, old(seen.refs), reference.value);
        var found := SchemaProperty(Target(schemas, reference.value).value, name, schemas, seen);
        if found.Some? {
          seen.refs := seen.refs - {reference.value};
          return found;
        }
      }
      seen.refs := seen.refs - {reference.value};
    }
    var next := 0;
    while next < |COMBINATORS|
      invariant next <= |COMBINATORS| && seen.refs == old(seen.refs)
      invariant Lookup(current, name, schemas, seen.refs) == LookupCombinators(current, next, name, schemas, seen.refs)
    {
      var matches := SearchBranches(current, COMBINATORS[next], name, schemas, seen);
      if |matches| == 1 {
        return Some(matches[0]);
      } else if |matches| > 1 {
        return Some(Object(map[COMBINATORS[next] := List(matches)]));
      }
      next := next + 1;
    }
    property := None;
  }

  method SearchBranches(current: Json, combinator: string, name: string, schemas: Schemas, seen: SeenRefs)
    returns (matches: seq<Json>)
    modifies seen
    ensures seen.refs == old(seen.refs)
    ensures matches == Matches(current, combinator, |Branches(current, combinator)|, name, schemas, old(seen.refs))
    decreases Unseen(schemas, seen.refs), current, 2
  {
    var branches := Branches(current, combinator);
    matches := [];
    var i := 0;
    while i < |branches|
      invariant i <= |branches| && seen.refs == old(seen.refs)
      invariant matches == Matches(current, combinator, i, name, schemas, seen.refs)
    {
      if branches[i].Object? {
        var found := SchemaProperty(branches[i], name, schemas, seen);
        if found.Some? {
          matches := matches + [found.value];
        }
      }
      i := i + 1;
    }
  }
}
