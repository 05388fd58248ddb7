/** When the SafeWrite relation is reflexive and when it composes, and exactly where it stops. */
module SafeWriteLaws {
  import opened JsonValues
  import opened SafeWrite

  // ----- no change -----

  /** On every route from here no field of a spec loses a claim. */
  ghost predicate ClaimsKept(casing: Casing, position: nat -> string, site: Site) {
    forall route, key :: KeptOn(casing, position, site, route, key)
  }

  lemma {:induction false} AcceptsMeansClaimsKept(casing: Casing, position: nat -> string, site: Site)
    ensures Accepts(casing, position, site.before, site.after, site.path) <==> ClaimsKept(casing, position, site)
  {
    if Accepts(casing, position, site.before, site.after, site.path) {
      forall route, key ensures KeptOn(casing, position, site, route, key) {
        AcceptedKeeps(casing, position, site, route, key);
      }
    } else if ClaimsKept(casing, position, site) {
      KeepingIsAccepted(casing, position, site);
    }
  }

  /** Every list entry that is compared with another entry, because an earlier one has its name, claims nothing that
      the other does not claim in the same place. */
  ghost predicate Covered(casing: Casing, position: nat -> string, v: Json, path: string)
    decreases v, 1
  {
    match v
    case Object(fields) =>
      forall key :: key in fields ==> Covered(casing, position, fields[key], ChildPath(path, key))
    case List(items) => forall i :: 0 <= i < |items| ==> EntryCovered(casing, position, v, i, path)
    case _ => true
  }

  ghost predicate EntryCovered(casing: Casing, position: nat -> string, v: Json, i: nat, path: string)
    requires v.List? && i < |v.items|
    decreases v, 0
  {
    var other := MatchingEntry(v.items[i], v.items, i).value;
    if other == v.items[i] then Covered(casing, position, v.items[i], EntryPath(position, path, i))
    else ClaimsKept(casing, position, Site(v.items[i], other, EntryPath(position, path, i)))
  }

  /** No change is accepted exactly when every shadowed entry is covered. */
  lemma {:induction false} UnchangedIsAcceptedExactly(casing: Casing, position: nat -> string, v: Json, path: string)
    ensures Accepts(casing, position, v, v, path) <==> Covered(casing, position, v, path)
    decreases v, 1
  {
    match v
    case Object(fields) =>
      forall key | key in fields
        ensures !Weakened(casing, ControlOf(casing, key), fields[key], fields[key], true)
        ensures Accepts(casing, position, fields[key], fields[key], ChildPath(path, key))
                <==> Covered(casing, position, fields[key], ChildPath(path, key))
      {
        WeakenedLosesAClaim(casing, ControlOf(casing, key), fields[key], fields[key], true);
        UnchangedIsAcceptedExactly(casing, position, fields[key], ChildPath(path, key));
      }
    case List(items) =>
      forall i | 0 <= i < |items|
        ensures EntryPasses(casing, position, items, v, path, i) <==> EntryCovered(casing, position, v, i, path)
      {
        UnchangedEntry(casing, position, v, i, path);
      }
      EntriesDecide(casing, position, items, v, path);
    case _ =>
  }

  lemma {:induction false} UnchangedEntry(casing: Casing, position: nat -> string, v: Json, i: nat, path: string)
    requires v.List? && i < |v.items|
    ensures EntryPasses(casing, position, v.items, v, path, i) <==> EntryCovered(casing, position, v, i, path)
    decreases v, 0
  {
    UnchangedIsAcceptedExactly(casing, position, v.items[i], EntryPath(position, path, i));
    AcceptsMeansClaimsKept(casing, position,
                           Site(v.items[i], MatchingEntry(v.items[i], v.items, i).value, EntryPath(position, path, i)));
  }

  /** In every list, no two entries share a non-empty name. */
  predicate DistinctNames(v: Json) {
    match v
    case Object(fields) => forall key :: key in fields ==> DistinctNames(fields[key])
    case List(items) =>
      && (forall i, j :: 0 <= i < j < |items| && NameOf(items[i]) != "" ==> NameOf(items[j]) != NameOf(items[i]))
      && forall i :: 0 <= i < |items| ==> DistinctNames(items[i])
    case _ => true
  }

  lemma {:induction false} FirstNamedIs(list: seq<Json>, i: nat)
    requires i < |list| && NameOf(list[i]) != "" && forall j :: 0 <= j < i ==> NameOf(list[j]) != NameOf(list[i])
    ensures FirstNamed(list, NameOf(list[i])) == Some(list[i])
  {
    if i > 0 {
      FirstNamedIs(list[1..], i - 1);
    }
  }

  lemma {:induction false} DistinctNamesAreCovered(casing: Casing, position: nat -> string, v: Json, path: string)
    requires DistinctNames(v)
    ensures Covered(casing, position, v, path)
    decreases v
  {
    match v
    case Object(fields) =>
      forall key | key in fields ensures Covered(casing, position, fields[key], ChildPath(path, key)) {
        DistinctNamesAreCovered(casing, position, fields[key], ChildPath(path, key));
      }
    case List(items) =>
      forall i | 0 <= i < |items| ensures EntryCovered(casing, position, v, i, path) {
        if NameOf(items[i]) != "" {
          FirstNamedIs(items, i);
        }
        assert MatchingEntry(items[i], items, i) == Some(items[i]);
        DistinctNamesAreCovered(casing, position, items[i], EntryPath(position, path, i));
      }
    case _ =>
  }

  /** In particular, no change is accepted when named list entries are distinct. */
  lemma {:induction false} UnchangedIsAccepted(casing: Casing, position: nat -> string, v: Json, path: string)
    requires DistinctNames(v)
    ensures Accepts(casing, position, v, v, path)
  {
    DistinctNamesAreCovered(casing, position, v, path);
    UnchangedIsAcceptedExactly(casing, position, v, path);
  }

  // ----- two transitions in a row -----

  lemma {:induction false} KeptTwice(casing: Casing, a: Json, b: Json, c: Json, path: string, key: string)
    requires key in Fields(a) && FieldKept(casing, Site(a, b, path), key) && FieldKept(casing, Site(b, c, path), key)
    ensures InSpec(path) ==>
        !Weakened(casing, ControlOf(casing, key), a.fields[key], FieldOrNull(c, key), key in Fields(c))
  {
    WeakenedLosesAClaim(casing, ControlOf(casing, key), a.fields[key], FieldOrNull(c, key), key in Fields(c));
  }

  /** The field claims to be exactly its value, so that no accepted transition changes it. */
  predicate Pinned(casing: Casing, path: string, key: string, v: Json) {
    InSpec(path) && Exactly(v) in Claims(casing, ControlOf(casing, key), v)
  }

  /** Outside pinned fields, no list entry makes a claim. */
  predicate Composable(casing: Casing, position: nat -> string, v: Json, path: string) {
    match v
    case Object(fields) =>
      forall key :: key in fields ==>
        Pinned(casing, path, key, fields[key]) || Composable(casing, position, fields[key], ChildPath(path, key))
    case List(_) => ClaimFree(casing, position, v, path)
    case _ => true
  }

  lemma {:induction false} PinnedStays(casing: Casing, before: Json, after: Json, path: string, key: string)
    requires key in Fields(before) && Pinned(casing, path, key, before.fields[key])
    requires FieldKept(casing, Site(before, after, path), key)
    ensures FieldOrNull(after, key) == before.fields[key] && key in Fields(after)
  {
    assert Exactly(before.fields[key]) in Claims(casing, ControlOf(casing, key), FieldOrNull(after, key));
  }

  /** Two accepted transitions in a row are an accepted transition, if no list entry outside pinned fields of the first
      tree makes a claim. */
  lemma {:induction false} AcceptedTransitionsCompose(casing: Casing, position: nat -> string,
                                                      a: Json, b: Json, c: Json, path: string)
    requires Composable(casing, position, a, path)
    requires Accepts(casing, position, a, b, path) && Accepts(casing, position, b, c, path)
    ensures Accepts(casing, position, a, c, path)
    decreases a
  {
    match a
    case Object(fields) =>
      forall key | key in fields
        ensures InSpec(path) ==>
            !Weakened(casing, ControlOf(casing, key), fields[key], FieldOrNull(c, key), key in Fields(c))
        ensures Accepts(casing, position, fields[key], FieldOrNull(c, key), ChildPath(path, key))
      {
        AcceptedField(casing, position, Site(a, b, path), key);
        AcceptedField(casing, position, Site(b, c, path), key);
        KeptTwice(casing, a, b, c, path, key);
        if Pinned(casing, path, key, fields[key]) {
          PinnedStays(casing, a, b, path, key);
          PinnedStays(casing, b, c, path, key);
        } else {
          AcceptedTransitionsCompose(casing, position, fields[key], FieldOrNull(b, key), FieldOrNull(c, key),
                                     ChildPath(path, key));
        }
      }
    case List(_) => ClaimFreeIsAccepted(casing, position, a, c, path);
    case _ =>
  }

  // ----- where composition stops -----

  /** The route leads to a field that makes a claim. */
  predicate ClaimAt(casing: Casing, position: nat -> string, v: Json, path: string, route: seq<Turn>, key: string)
    decreases |route|
  {
    if route == [] then
      key in Fields(v) && InSpec(path) && Claims(casing, ControlOf(casing, key), Fields(v)[key]) != {}
    else
      match route[0]
      case Key(k) => k in Fields(v) && ClaimAt(casing, position, Fields(v)[k], ChildPath(path, k), route[1..], key)
      case Entry(i) =>
        i < |Items(v)| && ClaimAt(casing, position, Items(v)[i], EntryPath(position, path, i), route[1..], key)
  }

  lemma {:induction false} FindClaim(casing: Casing, position: nat -> string, v: Json, path: string)
    returns (route: seq<Turn>, key: string)
    requires !ClaimFree(casing, position, v, path)
    ensures ClaimAt(casing, position, v, path, route, key)
    decreases v
  {
    if v.Object? {
      var k :| k in v.fields &&
        !((InSpec(path) ==> Claims(casing, ControlOf(casing, k), v.fields[k]) == {})
          && ClaimFree(casing, position, v.fields[k], ChildPath(path, k)));
      if InSpec(path) && Claims(casing, ControlOf(casing, k), v.fields[k]) != {} {
        route, key := [], k;
      } else {
        var rest;
        rest, key := FindClaim(casing, position, v.fields[k], ChildPath(path, k));
        route := [Key(k)] + rest;
        assert route[1..] == rest;
      }
    } else {
      var i :| 0 <= i < |v.items| && !ClaimFree(casing, position, v.items[i], EntryPath(position, path, i));
      var rest;
      rest, key := FindClaim(casing, position, v.items[i], EntryPath(position, path, i));
      route := [Entry(i)] + rest;
      assert route[1..] == rest;
    }
  }

  /** A tree with a hole at the end of the route and nothing beside it. */
  function Bare(route: seq<Turn>): Json {
    if route == [] then Null
    else
      match route[0]
      case Key(k) => Object(map[k := Bare(route[1..])])
      case Entry(i) => List(Padded(i, Bare(route[1..])))
  }

  function Padded(i: nat, last: Json): seq<Json> { seq(i, _ => Null) + [last] }

  lemma {:induction false} PaddedMatch(previous: Json, route: seq<Turn>, i: nat)
    ensures MatchingEntry(previous, Padded(i, Bare(route)), i) == Some(Bare(route))
  {
    var padded := Padded(i, Bare(route));
    if NameOf(previous) != "" {
      assert !Bare(route).String? && (route != [] ==> !Bare(route[1..]).String?);
      forall j | 0 <= j < |padded| ensures NameOf(padded[j]) == "" {
        assert padded[j] == if j < i then Null else Bare(route);
      }
      NobodyNamed(padded, NameOf(previous));
    }
  }

  lemma {:induction false} NobodyNamed(list: seq<Json>, name: string)
    requires name != "" && forall i :: 0 <= i < |list| ==> NameOf(list[i]) == ""
    ensures FirstNamed(list, name) == None
  {
    if list != [] {
      NobodyNamed(list[1..], name);
    }
  }

  lemma {:induction false} BareLosesTheClaim(casing: Casing, position: nat -> string, v: Json, path: string,
                                             route: seq<Turn>, key: string)
    requires ClaimAt(casing, position, v, path, route, key)
    ensures !Accepts(casing, position, v, Bare(route), path)
    decreases |route|
  {
    if route == [] {
      WeakenedLosesAClaim(casing, ControlOf(casing, key), v.fields[key], Null, false);
    } else {
      match route[0]
      case Key(k) => BareLosesTheClaim(casing, position, v.fields[k], ChildPath(path, k), route[1..], key);
      case Entry(i) =>
        BareLosesTheClaim(casing, position, v.items[i], EntryPath(position, path, i), route[1..], key);
        PaddedMatch(v.items[i], route[1..], i);
        RefusedEntry(casing, position, v.items, Padded(i, Bare(route[1..])), i, Bare(route[1..]), path);
    }
  }

  lemma {:induction false} RefusedEntry(casing: Casing, position: nat -> string, before: seq<Json>, after: seq<Json>,
                                        i: nat, next: Json, path: string)
    requires i < |before| && MatchingEntry(before[i], after, i) == Some(next)
    requires !Accepts(casing, position, before[i], next, EntryPath(position, path, i))
    ensures !Accepts(casing, position, List(before), List(after), path)
  {
    assert List(before).items[i] == before[i] && Items(List(after)) == after;
  }

  /** The tree with another value under a list of keys. */
  function Put(v: Json, keys: seq<string>, w: Json): Json
    decreases |keys|
  {
    if keys == [] then w
    else if keys[0] in Fields(v) then Object(v.fields[keys[0] := Put(v.fields[keys[0]], keys[1..], w)])
    else v
  }

  /** No field on the way is pinned. */
  ghost predicate UnpinnedTo(casing: Casing, v: Json, path: string, keys: seq<string>)
    decreases |keys|
  {
    keys == [] ||
    (&& keys[0] in Fields(v) && !Pinned(casing, path, keys[0], v.fields[keys[0]])
     && UnpinnedTo(casing, v.fields[keys[0]], ChildPath(path, keys[0]), keys[1..]))
  }

  lemma {:induction false} RefilledClaims(casing: Casing, control: Control, v: Json, keys: seq<string>, w: Json)
    requires ValueAt(v, keys) == Some(List([])) && Exactly(v) !in Claims(casing, control, v)
    ensures Claims(casing, control, v) <= Claims(casing, control, Put(v, keys, w))
  {
    if control.Capabilities? && keys != [] {
      if keys[0] == "drop" {
        assert StringsIn(v.fields["drop"]) == {};
      } else {
        assert FieldOrNull(Put(v, keys, w), "drop") == FieldOrNull(v, "drop");
      }
    }
  }

  /** In a tree that may stay as it is, an empty list that no field above it pins may be filled with anything. */
  lemma {:induction false} RefillIsAccepted(casing: Casing, position: nat -> string, b: Json, path: string,
                                            keys: seq<string>, w: Json)
    requires ValueAt(b, keys) == Some(List([])) && UnpinnedTo(casing, b, path, keys)
    requires Accepts(casing, position, b, b, path)
    ensures Accepts(casing, position, b, Put(b, keys, w), path)
    decreases |keys|
  {
    if keys == [] {
      EntriesDecide(casing, position, [], w, path);
    } else {
      var c := Put(b, keys, w);
      forall key | key in b.fields ensures FieldPasses(casing, position, b.fields, c, path, key) {
        assert FieldPasses(casing, position, b.fields, b, path, key);
        if key == keys[0] {
          RefillIsAccepted(casing, position, b.fields[key], ChildPath(path, key), keys[1..], w);
          RefilledField(casing, b, path, keys, w);
        }
      }
      FieldsDecide(casing, position, b.fields, c, path);
    }
  }

  lemma {:induction false} RefilledField(casing: Casing, b: Json, path: string, keys: seq<string>, w: Json)
    requires keys != [] && ValueAt(b, keys) == Some(List([])) && UnpinnedTo(casing, b, path, keys)
    ensures var v, control := b.fields[keys[0]], ControlOf(casing, keys[0]);
            InSpec(path) ==> !Weakened(casing, control, v, Put(v, keys[1..], w), true)
  {
    var v, control := b.fields[keys[0]], ControlOf(casing, keys[0]);
    WeakenedLosesAClaim(casing, control, v, Put(v, keys[1..], w), true);
    if InSpec(path) {
      RefilledClaims(casing, control, v, keys[1..], w);
    }
  }

  lemma {:induction false} AcceptedUnder(casing: Casing, position: nat -> string, a: Json, c: Json, path: string,
                                         keys: seq<string>)
    requires ValueAt(a, keys).Some? && Accepts(casing, position, a, c, path)
    ensures Accepts(casing, position, ValueAt(a, keys).value, ValueOrNull(c, keys), PathFrom(path, keys))
    decreases |keys|
  {
    if keys != [] {
      NothingUnderNull(keys[1..]);
      AcceptedUnder(casing, position, a.fields[keys[0]], FieldOrNull(c, keys[0]), ChildPath(path, keys[0]), keys[1..]);
    }
  }

  lemma {:induction false} PutIsThere(v: Json, keys: seq<string>, w: Json)
    requires ValueAt(v, keys).Some?
    ensures ValueAt(Put(v, keys, w), keys) == Some(w)
    decreases |keys|
  {
    if keys != [] {
      PutIsThere(v.fields[keys[0]], keys[1..], w);
    }
  }

  /** A list somewhere under object keys, none of them pinned, has an entry that makes a claim. */
  ghost predicate Guarded(casing: Casing, position: nat -> string, v: Json, path: string, keys: seq<string>)
    decreases |keys|
  {
    if keys == [] then v.List? && !ClaimFree(casing, position, v, path)
    else
      && keys[0] in Fields(v) && !Pinned(casing, path, keys[0], v.fields[keys[0]])
      && Guarded(casing, position, v.fields[keys[0]], ChildPath(path, keys[0]), keys[1..])
  }

  lemma {:induction false} GuardedIsThere(casing: Casing, position: nat -> string, v: Json, path: string,
                                          keys: seq<string>)
    requires Guarded(casing, position, v, path, keys)
    ensures ValueAt(v, keys).Some? && ValueAt(v, keys).value.List?
    ensures !ClaimFree(casing, position, ValueAt(v, keys).value, PathFrom(path, keys))
    decreases |keys|
  {
    if keys != [] {
      GuardedIsThere(casing, position, v.fields[keys[0]], ChildPath(path, keys[0]), keys[1..]);
    }
  }

  lemma {:induction false} FindGuarded(casing: Casing, position: nat -> string, v: Json, path: string)
    returns (keys: seq<string>)
    requires !Composable(casing, position, v, path)
    ensures Guarded(casing, position, v, path, keys)
    decreases v
  {
    if v.List? {
      keys := [];
    } else {
      var key :| key in v.fields && !Pinned(casing, path, key, v.fields[key])
        && !Composable(casing, position, v.fields[key], ChildPath(path, key));
      var rest := FindGuarded(casing, position, v.fields[key], ChildPath(path, key));
      keys := [key] + rest;
      assert keys[1..] == rest;
    }
  }

  /** Whatever the list and whatever its claim: from any accepted state that has the list empty and unpinned, and may
      itself stay as it is, an accepted transition loses the claim in a way that the tree itself may not. */
  lemma {:induction false} GuardedListEscapes(casing: Casing, position: nat -> string, a: Json, b: Json, path: string,
                                              keys: seq<string>)
    returns (c: Json)
    requires Guarded(casing, position, a, path, keys) && Accepts(casing, position, a, b, path)
    requires ValueAt(b, keys) == Some(List([])) && UnpinnedTo(casing, b, path, keys)
    requires Accepts(casing, position, b, b, path)
    ensures Accepts(casing, position, b, c, path) && !Accepts(casing, position, a, c, path)
  {
    GuardedIsThere(casing, position, a, path, keys);
    var list := ValueAt(a, keys).value;
    var route, key := FindClaim(casing, position, list, PathFrom(path, keys));
    BareLosesTheClaim(casing, position, list, PathFrom(path, keys), route, key);
    c := Put(b, keys, Bare(route));
    RefillIsAccepted(casing, position, b, path, keys, Bare(route));
    PutIsThere(b, keys, Bare(route));
    if Accepts(casing, position, a, c, path) {
      AcceptedUnder(casing, position, a, c, path, keys);
    }
  }

  /** From this tree, two accepted transitions in a row are always an accepted transition. */
  ghost predicate Composes(casing: Casing, position: nat -> string, a: Json) {
    forall b, c :: Accepts(casing, position, a, b, "") && Accepts(casing, position, b, c, "") ==>
                     Accepts(casing, position, a, c, "")
  }

  predicate Scalar(v: Json) { !v.Object? && !v.List? }

  predicate ScalarEntries(items: seq<Json>) { forall i :: 0 <= i < |items| ==> Scalar(items[i]) }

  /** The tree with every list that holds more than scalars emptied, pinned fields aside. */
  function Hollow(casing: Casing, v: Json, path: string): Json {
    match v
    case Object(fields) =>
      Object(map key | key in fields ::
               if Pinned(casing, path, key, fields[key]) then fields[key]
               else Hollow(casing, fields[key], ChildPath(path, key)))
    case List(items) => if ScalarEntries(items) then v else List([])
    case _ => v
  }

  /** Every pinned field may stay as it is. */
  ghost predicate PinnedCovered(casing: Casing, position: nat -> string, v: Json, path: string) {
    v.Object? ==>
      forall key :: key in v.fields ==>
        if Pinned(casing, path, key, v.fields[key]) then Covered(casing, position, v.fields[key], ChildPath(path, key))
        else PinnedCovered(casing, position, v.fields[key], ChildPath(path, key))
  }

  /** A list of dropped capabilities that names any holds nothing but scalars, as its schema demands. */
  predicate PlainDrops(v: Json, path: string) {
    v.Object? ==>
      forall key :: key in v.fields ==>
        && (InSpec(path) && key == "capabilities" ==> PlainDrop(FieldOrNull(v.fields[key], "drop")))
        && PlainDrops(v.fields[key], ChildPath(path, key))
  }

  predicate PlainDrop(drop: Json) { StringsIn(drop) == {} || ScalarEntries(Items(drop)) }

  /** A tree that any transition at all is accepted from has its pinned fields covered. */
  lemma {:induction false} AcceptedMeansPinnedCovered(casing: Casing, position: nat -> string, a: Json, b: Json,
                                                      path: string)
    requires Accepts(casing, position, a, b, path)
    ensures PinnedCovered(casing, position, a, path)
    decreases a
  {
    if a.Object? {
      forall key | key in a.fields
        ensures if Pinned(casing, path, key, a.fields[key])
                then Covered(casing, position, a.fields[key], ChildPath(path, key))
                else PinnedCovered(casing, position, a.fields[key], ChildPath(path, key))
      {
        if Pinned(casing, path, key, a.fields[key]) {
          AcceptedField(casing, position, Site(a, b, path), key);
          PinnedStays(casing, a, b, path, key);
          UnchangedIsAcceptedExactly(casing, position, a.fields[key], ChildPath(path, key));
        } else {
          AcceptedMeansPinnedCovered(casing, position, a.fields[key], FieldOrNull(b, key), ChildPath(path, key));
        }
      }
    }
  }

  lemma {:induction false} HollowIsCovered(casing: Casing, position: nat -> string, v: Json, path: string)
    requires PinnedCovered(casing, position, v, path)
    ensures Covered(casing, position, Hollow(casing, v, path), path)
    decreases v
  {
    match v
    case Object(fields) =>
      var hollow := Hollow(casing, v, path);
      forall key | key in fields ensures Covered(casing, position, hollow.fields[key], ChildPath(path, key)) {
        if !Pinned(casing, path, key, fields[key]) {
          HollowIsCovered(casing, position, fields[key], ChildPath(path, key));
        }
      }
    case List(items) =>
      if ScalarEntries(items) {
        forall i | 0 <= i < |items| ensures EntryCovered(casing, position, v, i, path) {
          assert Scalar(items[i]) && NameOf(items[i]) == "";
        }
      }
    case _ =>
  }

  lemma {:induction false} HollowProfile(casing: Casing, v: Json, path: string)
    ensures ProtectiveProfile(casing, Hollow(casing, v, path)) == ProtectiveProfile(casing, v)
  {
    if v.Object? && "type" in v.fields {
      var x := v.fields["type"];
      assert Hollow(casing, v, path).fields["type"] in {x, Hollow(casing, x, ChildPath(path, "type"))};
    }
  }

  lemma {:induction false} HollowDrops(casing: Casing, v: Json, path: string)
    requires PlainDrop(FieldOrNull(v, "drop"))
    ensures StringsIn(FieldOrNull(v, "drop")) <= StringsIn(FieldOrNull(Hollow(casing, v, path), "drop"))
  {
    var drop := FieldOrNull(v, "drop");
    if drop.List? && ScalarEntries(drop.items) {
      assert FieldOrNull(Hollow(casing, v, path), "drop") == drop;
    }
  }

  /** Hollowing an unpinned field takes no claim from it, and pins nothing. */
  lemma {:induction false} HollowClaims(casing: Casing, v: Json, path: string, key: string)
    requires v.Object? && key in v.fields && InSpec(path) && !Pinned(casing, path, key, v.fields[key])
    ensures var w, control := Hollow(casing, v.fields[key], ChildPath(path, key)), ControlOf(casing, key);
            && Exactly(w) !in Claims(casing, control, w)
            && (PlainDrops(v, path) ==> Claims(casing, control, v.fields[key]) <= Claims(casing, control, w))
  {
    var control := ControlOf(casing, key);
    HollowKeepsClaims(casing, control, v.fields[key], ChildPath(path, key));
    if PlainDrops(v, path) && control.Capabilities? {
      assert key == "capabilities";
      HollowDrops(casing, v.fields[key], ChildPath(path, key));
    }
  }

  lemma {:induction false} HollowKeepsClaims(casing: Casing, control: Control, v: Json, path: string)
    requires Exactly(v) !in Claims(casing, control, v)
    ensures var w := Hollow(casing, v, path);
            && Exactly(w) !in Claims(casing, control, w)
            && (!control.Capabilities? ==> Claims(casing, control, v) <= Claims(casing, control, w))
  {
    match control
    case Profile => HollowProfile(casing, v, path);
    case _ => assert Scalar(v) ==> Hollow(casing, v, path) == v;
  }

  /** A tree whose pinned fields may stay may have all its other lists emptied of objects and lists. */
  lemma {:induction false} HollowIsAccepted(casing: Casing, position: nat -> string, v: Json, path: string)
    requires PinnedCovered(casing, position, v, path) && PlainDrops(v, path)
    ensures Accepts(casing, position, v, Hollow(casing, v, path), path)
    decreases v
  {
    match v
    case Object(fields) =>
      var hollow := Hollow(casing, v, path);
      forall key | key in fields ensures FieldPasses(casing, position, fields, hollow, path, key) {
        var x, w := fields[key], hollow.fields[key];
        WeakenedLosesAClaim(casing, ControlOf(casing, key), x, w, true);
        if Pinned(casing, path, key, x) {
          UnchangedIsAcceptedExactly(casing, position, x, ChildPath(path, key));
        } else {
          HollowIsAccepted(casing, position, x, ChildPath(path, key));
          if InSpec(path) {
            HollowClaims(casing, v, path, key);
          }
        }
      }
      FieldsDecide(casing, position, fields, hollow, path);
    case List(items) => EntriesDecide(casing, position, items, Hollow(casing, v, path), path);
    case _ =>
  }

  lemma {:induction false} GuardedIsEmptied(casing: Casing, position: nat -> string, a: Json, path: string,
                                            keys: seq<string>)
    requires Guarded(casing, position, a, path, keys)
    ensures ValueAt(Hollow(casing, a, path), keys) == Some(List([]))
    ensures UnpinnedTo(casing, Hollow(casing, a, path), path, keys)
    decreases |keys|
  {
    if keys == [] {
      forall i | 0 <= i < |a.items| && Scalar(a.items[i])
        ensures ClaimFree(casing, position, a.items[i], EntryPath(position, path, i))
      {
      }
    } else {
      GuardedIsEmptied(casing, position, a.fields[keys[0]], ChildPath(path, keys[0]), keys[1..]);
      if InSpec(path) {
        HollowClaims(casing, a, path, keys[0]);
      }
    }
  }

  /** The exact condition: the law holds of a tree if and only if no list entry outside pinned fields makes a claim, or
      some pinned field could not even stay as it is, so that there is no first transition at all. */
  lemma {:induction false} ComposesExactly(casing: Casing, position: nat -> string, a: Json)
    requires PlainDrops(a, "")
    ensures Composes(casing, position, a)
            <==> Composable(casing, position, a, "") || !PinnedCovered(casing, position, a, "")
  {
    forall b, c | Accepts(casing, position, a, b, "") && Accepts(casing, position, b, c, "")
      ensures Composable(casing, position, a, "") ==> Accepts(casing, position, a, c, "")
      ensures PinnedCovered(casing, position, a, "")
    {
      AcceptedMeansPinnedCovered(casing, position, a, b, "");
      if Composable(casing, position, a, "") {
        AcceptedTransitionsCompose(casing, position, a, b, c, "");
      }
    }
    if !Composable(casing, position, a, "") && PinnedCovered(casing, position, a, "") {
      var keys := FindGuarded(casing, position, a, "");
      var hollow := Hollow(casing, a, "");
      HollowIsAccepted(casing, position, a, "");
      HollowIsCovered(casing, position, a, "");
      UnchangedIsAcceptedExactly(casing, position, hollow, "");
      GuardedIsEmptied(casing, position, a, "", keys);
      var c := GuardedListEscapes(casing, position, a, hollow, "", keys);
      assert !Composes(casing, position, a);
    }
  }

  // ----- two small workloads -----

  const HARDENED := Object(map["name" := String("x"), "runAsNonRoot" := Bool(true)])
  const PLAIN := Object(map["name" := String("x")])
  const OTHER := Object(map["name" := String("y")])

  function Workload(containers: seq<Json>): Json {
    Object(map["spec" := Object(map["containers" := List(containers)])])
  }

  lemma {:induction false} ListIsNoControl(casing: Casing, before: seq<Json>, after: Json)
    ensures !Weakened(casing, ControlOf(casing, "containers"), List(before), after, true)
  {
    var control := ControlOf(casing, "containers");
    assert control == ProfileText || control == Uncontrolled;
  }

  /** A workload is judged by its container list alone. */
  lemma {:induction false} WorkloadVerdict(casing: Casing, position: nat -> string, before: seq<Json>, after: seq<Json>)
    ensures Accepts(casing, position, Workload(before), Workload(after), "")
            <==> Accepts(casing, position, List(before), List(after), "spec.containers")
  {
    SpecVerdict(casing, position, before, after);
    assert ChildPath("", "spec") == "spec";
    assert !InSpec("") by { assert !Contains("", ".spec."); }
    assert "spec" in Workload(before).fields;
  }

  lemma {:induction false} SpecVerdict(casing: Casing, position: nat -> string, before: seq<Json>, after: seq<Json>)
    ensures Accepts(casing, position, Workload(before).fields["spec"], Workload(after).fields["spec"], "spec")
            <==> Accepts(casing, position, List(before), List(after), "spec.containers")
  {
    ListIsNoControl(casing, before, List(after));
    assert ChildPath("spec", "containers") == "spec.containers";
    assert "containers" in Workload(before).fields["spec"].fields;
  }

  lemma {:induction false} PlainWeakensHardened(casing: Casing, position: nat -> string, path: string)
    requires InSpec(path)
    ensures !Accepts(casing, position, HARDENED, PLAIN, path)
  {
    assert "runAsNonRoot" in HARDENED.fields && ControlOf(casing, "runAsNonRoot") == On;
  }

  /** Removing a container beside another and adding it back unprotected are each accepted, but not both at once. */
  lemma {:induction false} RemovingAndReaddingEscapes(casing: Casing, position: nat -> string)
    ensures Accepts(casing, position, Workload([OTHER, HARDENED]), Workload([OTHER]), "")
    ensures Accepts(casing, position, Workload([OTHER]), Workload([OTHER, PLAIN]), "")
    ensures !Accepts(casing, position, Workload([OTHER, HARDENED]), Workload([OTHER, PLAIN]), "")
  {
    WorkloadVerdict(casing, position, [OTHER, HARDENED], [OTHER]);
    WorkloadVerdict(casing, position, [OTHER], [OTHER, PLAIN]);
    WorkloadVerdict(casing, position, [OTHER, HARDENED], [OTHER, PLAIN]);
    OtherStays(casing, position, [OTHER, HARDENED], [OTHER]);
    OtherStays(casing, position, [OTHER], [OTHER, PLAIN]);
    HardenedToPlain(casing, position);
  }

  /** The first container stays, and a second that is gone is compared with nothing. */
  lemma {:induction false} OtherStays(casing: Casing, position: nat -> string, before: seq<Json>, after: seq<Json>)
    requires before == [OTHER] || (before == [OTHER, HARDENED] && after == [OTHER])
    requires after != [] && after[0] == OTHER
    ensures Accepts(casing, position, List(before), List(after), "spec.containers")
  {
    forall i | 0 <= i < |before| ensures EntryPasses(casing, position, before, List(after), "spec.containers", i) {
      if i == 0 {
        assert MatchingEntry(OTHER, after, 0) == Some(OTHER);
        assert DistinctNames(OTHER);
        UnchangedIsAccepted(casing, position, OTHER, EntryPath(position, "spec.containers", 0));
      } else {
        assert NameOf(OTHER) == "y" && NameOf(HARDENED) == "x";
        assert [OTHER][1..] == [] && FirstNamed([OTHER], "x") == FirstNamed([OTHER][1..], "x");
      }
    }
    EntriesDecide(casing, position, before, List(after), "spec.containers");
  }

  lemma {:induction false} HardenedToPlain(casing: Casing, position: nat -> string)
    ensures !Accepts(casing, position, List([OTHER, HARDENED]), List([OTHER, PLAIN]), "spec.containers")
  {
    var after := [OTHER, PLAIN];
    assert NameOf(OTHER) == "y" && NameOf(HARDENED) == "x";
    assert after[1..] == [PLAIN] && FirstNamed(after, "x") == FirstNamed(after[1..], "x");
    PlainWeakensHardened(casing, position, EntryPath(position, "spec.containers", 1));
    RefusedEntry(casing, position, [OTHER, HARDENED], [OTHER, PLAIN], 1, PLAIN, "spec.containers");
  }

  /** With two entries of one name the second is compared with the first, and even no change at all is refused. */
  lemma {:induction false} DuplicateNamesRefuseNoChange(casing: Casing, position: nat -> string)
    ensures !Accepts(casing, position, Workload([PLAIN, HARDENED]), Workload([PLAIN, HARDENED]), "")
  {
    var containers := [PLAIN, HARDENED];
    WorkloadVerdict(casing, position, containers, containers);
    assert MatchingEntry(HARDENED, containers, 1) == Some(PLAIN);
    PlainWeakensHardened(casing, position, EntryPath(position, "spec.containers", 1));
    RefusedEntry(casing, position, containers, containers, 1, PLAIN, "spec.containers");
  }
}
