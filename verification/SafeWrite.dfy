/** The SafeWrite transition walker: an update may not weaken a workload's existing security controls
    (internal/server/safe_write.go). */
module SafeWrite {
  import opened JsonValues

  /** strings.ToLower and strings.EqualFold; nothing below depends on which folding they use. */
  datatype Casing = Casing(lower: string -> string, equalFold: (string, string) -> bool)

  predicate Contains(text: string, part: string) {
    part <= text || (text != "" && Contains(text[1..], part))
  }

  predicate InSpec(path: string) {
    path == "spec" || "spec." <= path || Contains(path, ".spec.")
  }

  function TrimDot(path: string): string { if path != "" && path[0] == '.' then path[1..] else path }

  function ChildPath(path: string, key: string): string { TrimDot(path + "." + key) }

  /** The position in a list as it shows in paths; its digits do not matter here. */
  function EntryPath(position: nat -> string, path: string, index: nat): string { path + "[" + position(index) + "]" }

  /** A missing field reads as nil. */
  function FieldOrNull(v: Json, key: string): Json {
    if key in Fields(v) then Fields(v)[key] else Null
  }

  function Items(v: Json): seq<Json> { if v.List? then v.items else [] }

  // ----- single controls -----

  function StringsIn(v: Json): set<string> {
    set i | 0 <= i < |Items(v)| && Items(v)[i].String? :: Items(v)[i].s
  }

  method StringSet(v: Json) returns (found: set<string>)
    ensures found == StringsIn(v)
  {
    found := {};
    var items := Items(v);
    for i := 0 to |items|
      invariant found == set j | 0 <= j < i && items[j].String? :: items[j].s
    {
      if items[i].String? {
        found := found + {items[i].s};
      }
    }
  }

  predicate PreservesDroppedCapabilities(before: Json, after: Json) {
    if !before.Object? then true
    else
      var required := StringsIn(FieldOrNull(before, "drop"));
      required == {} || (after.Object? && required <= StringsIn(FieldOrNull(after, "drop")))
  }

  predicate ProtectiveProfile(casing: Casing, v: Json) {
    match FieldOrNull(v, "type")
    case String(text) => text != "" && !casing.equalFold(text, "unconfined")
    case _ => false
  }

  predicate NamesProfile(casing: Casing, key: string) {
    Contains(casing.lower(key), "apparmor") || Contains(casing.lower(key), "seccomp")
  }

  /** The kinds of control the validator tells apart by field name. */
  datatype Control =
    | Off | On | NonRoot | WindowsUser | Name | Capabilities | Profile | SeLinux | ProfileText | Uncontrolled

  function ControlOf(casing: Casing, key: string): Control {
    if key in {"allowPrivilegeEscalation", "automountServiceAccountToken"} then Off
    else if key in {"runAsNonRoot", "readOnlyRootFilesystem"} then On
    else if key in {"runAsUser", "runAsGroup", "fsGroup"} then NonRoot
    else if key == "runAsUserName" then WindowsUser
    else if key in {"serviceAccountName", "runtimeClassName"} then Name
    else if key == "capabilities" then Capabilities
    else if key in {"seccompProfile", "appArmorProfile"} then Profile
    else if key == "seLinuxOptions" then SeLinux
    else if NamesProfile(casing, key) then ProfileText
    else Uncontrolled
  }

  /** The verdict on one field, as the validator decides it. */
  predicate Weakened(casing: Casing, control: Control, before: Json, after: Json, present: bool) {
    match control
    case Off => before == Bool(false) && (!present || after != Bool(false))
    case On => before == Bool(true) && (!present || after != Bool(true))
    case NonRoot => before.Number? && before.n != 0.0 && (!present || !after.Number? || after.n == 0.0)
    case WindowsUser =>
      && before.String? && casing.equalFold(before.s, "ContainerUser")
      && (!present || !after.String? || !casing.equalFold(after.s, "ContainerUser"))
    case Name => before.String? && before.s != "" && (!present || !after.String? || after.s != before.s)
    case Capabilities => !PreservesDroppedCapabilities(before, after)
    case Profile => ProtectiveProfile(casing, before) && (!present || before != after)
    case SeLinux => before != Null && (!present || before != after)
    case ProfileText =>
      before.String? && before.s != "" && !casing.equalFold(before.s, "unconfined") && (!present || before != after)
    case Uncontrolled => false
  }

  /** What a field promises about the workload; more claims are more protection. */
  datatype Claim = Holds | Pinned(name: string) | Drops(capability: string) | Exactly(value: Json)

  /** The protection a field gives by itself, with no comparison to another value. */
  function Claims(casing: Casing, control: Control, v: Json): set<Claim> {
    match control
    case Off => if v == Bool(false) then {Holds} else {}
    case On => if v == Bool(true) then {Holds} else {}
    case NonRoot => if v.Number? && v.n != 0.0 then {Holds} else {}
    case WindowsUser => if v.String? && casing.equalFold(v.s, "ContainerUser") then {Holds} else {}
    case Name => if v.String? && v.s != "" then {Pinned(v.s)} else {}
    case Capabilities => set name | name in StringsIn(FieldOrNull(v, "drop")) :: Drops(name)
    case Profile => if ProtectiveProfile(casing, v) then {Exactly(v)} else {}
    case SeLinux => if v != Null then {Exactly(v)} else {}
    case ProfileText => if v.String? && v.s != "" && !casing.equalFold(v.s, "unconfined") then {Exactly(v)} else {}
    case Uncontrolled => {}
  }

  /** The validator refuses a field exactly when a claim is lost. */
  lemma {:induction false} WeakenedLosesAClaim(casing: Casing, control: Control, before: Json, after: Json,
                                               present: bool)
    requires !present ==> after == Null
    ensures Weakened(casing, control, before, after, present)
            <==> !(Claims(casing, control, before) <= Claims(casing, control, after))
  {
    var had, has := Claims(casing, control, before), Claims(casing, control, after);
    match control
    case Capabilities =>
      if had <= has {
        forall name | name in StringsIn(FieldOrNull(before, "drop"))
          ensures name in StringsIn(FieldOrNull(after, "drop"))
        {
          assert Drops(name) in had;
        }
      }
    case Name => assert had != {} ==> Pinned(before.s) in had;
    case Profile => assert had != {} ==> Exactly(before) in had;
    case SeLinux => assert had != {} ==> Exactly(before) in had;
    case ProfileText => assert had != {} ==> Exactly(before) in had;
    case _ => assert had != {} ==> Holds in had;
  }

  // ----- the walk -----

  /** The entry that an entry of the old list is compared with: the first of its name, or else the one at its index. */
  function MatchingEntry(previous: Json, next: seq<Json>, index: nat): Option<Json> {
    var name := NameOf(previous);
    if name != "" && FirstNamed(next, name).Some? then FirstNamed(next, name)
    else if index >= |next| then None
    else Some(next[index])
  }

  function NameOf(v: Json): string {
    match FieldOrNull(v, "name")
    case String(text) => text
    case _ => ""
  }

  function FirstNamed(list: seq<Json>, name: string): Option<Json> {
    if list == [] then None
    else if NameOf(list[0]) == name then Some(list[0])
    else FirstNamed(list[1..], name)
  }

  /** walkSecurityTransition accepts. */
  predicate Accepts(casing: Casing, position: nat -> string, before: Json, after: Json, path: string)
    decreases before
  {
    match before
    case Object(fields) =>
      forall key :: key in fields ==>
        && (InSpec(path) ==>
            !Weakened(casing, ControlOf(casing, key), fields[key], FieldOrNull(after, key), key in Fields(after)))
        && Accepts(casing, position, fields[key], FieldOrNull(after, key), ChildPath(path, key))
    case List(items) =>
      forall i :: 0 <= i < |items| ==>
        var next := MatchingEntry(items[i], Items(after), i);
        next.Some? ==> Accepts(casing, position, items[i], next.value, EntryPath(position, path, i))
    case _ => true
  }

  // ----- what acceptance means, control by control -----

  datatype Turn = Key(key: string) | Entry(index: nat)

  /** Two objects the walk compares, and where. */
  datatype Site = Site(before: Json, after: Json, path: string)

  /** Follows a route through the old tree, pairing each value on it with its counterpart in the new tree. */
  function Follow(position: nat -> string, site: Site, route: seq<Turn>): Option<Site>
    decreases |route|
  {
    if route == [] then Some(site)
    else
      match Next(position, site, route[0])
      case Some(next) => Follow(position, next, route[1..])
      case None => None
  }

  function Next(position: nat -> string, site: Site, turn: Turn): Option<Site> {
    match turn
    case Key(key) =>
      if key in Fields(site.before) then
        Some(Site(Fields(site.before)[key], FieldOrNull(site.after, key), ChildPath(site.path, key)))
      else None
    case Entry(i) =>
      if i < |Items(site.before)| then
        match MatchingEntry(Items(site.before)[i], Items(site.after), i)
        case Some(next) => Some(Site(Items(site.before)[i], next, EntryPath(position, site.path, i)))
        case None => None
      else None
  }

  /** If the site lies in a spec, the field loses no claim. */
  predicate FieldKept(casing: Casing, site: Site, key: string) {
    InSpec(site.path) && key in Fields(site.before) ==>
      Claims(casing, ControlOf(casing, key), Fields(site.before)[key])
      <= Claims(casing, ControlOf(casing, key), FieldOrNull(site.after, key))
  }

  predicate KeptOn(casing: Casing, position: nat -> string, site: Site, route: seq<Turn>, key: string) {
    Follow(position, site, route).Some? ==> FieldKept(casing, Follow(position, site, route).value, key)
  }

  lemma {:induction false} AcceptedField(casing: Casing, position: nat -> string, site: Site, key: string)
    requires Accepts(casing, position, site.before, site.after, site.path)
    ensures FieldKept(casing, site, key)
  {
    if key in Fields(site.before) {
      WeakenedLosesAClaim(casing, ControlOf(casing, key), Fields(site.before)[key], FieldOrNull(site.after, key),
                          key in Fields(site.after));
    }
  }

  lemma {:induction false} AcceptedTurn(casing: Casing, position: nat -> string, site: Site, turn: Turn)
    requires Accepts(casing, position, site.before, site.after, site.path) && Next(position, site, turn).Some?
    ensures var next := Next(position, site, turn).value; Accepts(casing, position, next.before, next.after, next.path)
  {
  }

  lemma {:induction false} AcceptedKeeps(casing: Casing, position: nat -> string, site: Site, route: seq<Turn>,
                                         key: string)
    requires Accepts(casing, position, site.before, site.after, site.path)
    ensures KeptOn(casing, position, site, route, key)
    decreases |route|
  {
    if route == [] {
      AcceptedField(casing, position, site, key);
    } else if Next(position, site, route[0]).Some? {
      AcceptedTurn(casing, position, site, route[0]);
      AcceptedKeeps(casing, position, Next(position, site, route[0]).value, route[1..], key);
    }
  }

  lemma {:induction false} KeepingIsAccepted(casing: Casing, position: nat -> string, site: Site)
    requires forall route, key :: KeptOn(casing, position, site, route, key)
    ensures Accepts(casing, position, site.before, site.after, site.path)
    decreases site.before
  {
    match site.before
    case Object(fields) =>
      forall key | key in fields
        ensures InSpec(site.path) ==>
                  !Weakened(casing, ControlOf(casing, key), fields[key], FieldOrNull(site.after, key),
                            key in Fields(site.after))
        ensures Accepts(casing, position, fields[key], FieldOrNull(site.after, key), ChildPath(site.path, key))
      {
        assert KeptOn(casing, position, site, [], key);
        WeakenedLosesAClaim(casing, ControlOf(casing, key), fields[key], FieldOrNull(site.after, key),
                            key in Fields(site.after));
        KeepsBelow(casing, position, site, Key(key));
        KeepingIsAccepted(casing, position, Next(position, site, Key(key)).value);
      }
    case List(items) =>
      forall i | 0 <= i < |items| && MatchingEntry(items[i], Items(site.after), i).Some?
        ensures Accepts(casing, position, items[i], MatchingEntry(items[i], Items(site.after), i).value,
                        EntryPath(position, site.path, i))
      {
        KeepsBelow(casing, position, site, Entry(i));
        KeepingIsAccepted(casing, position, Next(position, site, Entry(i)).value);
      }
    case _ =>
  }

  lemma {:induction false} KeepsBelow(casing: Casing, position: nat -> string, site: Site, turn: Turn)
    requires forall route, key :: KeptOn(casing, position, site, route, key)
    requires Next(position, site, turn).Some?
    ensures forall route, key :: KeptOn(casing, position, Next(position, site, turn).value, route, key)
  {
    forall route, key ensures KeptOn(casing, position, Next(position, site, turn).value, route, key) {
      assert KeptOn(casing, position, site, [turn] + route, key);
      assert ([turn] + route)[1..] == route;
    }
  }

  /** A transition is accepted exactly when, on every route the walk can take, no field of a spec loses a claim. */
  lemma {:induction false} AcceptsMeansKept(casing: Casing, position: nat -> string, before: Json, after: Json)
    ensures Accepts(casing, position, before, after, "")
            <==> forall route, key :: KeptOn(casing, position, Site(before, after, ""), route, key)
  {
    if Accepts(casing, position, before, after, "") {
      forall route, key ensures KeptOn(casing, position, Site(before, after, ""), route, key) {
        AcceptedKeeps(casing, position, Site(before, after, ""), route, key);
      }
    } else if forall route, key :: KeptOn(casing, position, Site(before, after, ""), route, key) {
      KeepingIsAccepted(casing, position, Site(before, after, ""));
    }
  }

  // ----- controls reached through object keys alone -----

  function PathFrom(path: string, keys: seq<string>): string
    decreases |keys|
  {
    if keys == [] then path else PathFrom(ChildPath(path, keys[0]), keys[1..])
  }

  function ValueOrNull(v: Json, keys: seq<string>): Json {
    match ValueAt(v, keys) case Some(value) => value case None => Null
  }

  /** The field under these keys, if there is one and it lies in a spec, loses no claim. */
  predicate KeptUnder(casing: Casing, before: Json, after: Json, path: string, keys: seq<string>, key: string) {
    ValueAt(before, keys).Some? ==>
      FieldKept(casing, Site(ValueAt(before, keys).value, ValueOrNull(after, keys), PathFrom(path, keys)), key)
  }

  /** Key lists that start with "spec" stay in the spec, however long they are. */
  lemma {:induction false} SpecKeysAreInSpec(keys: seq<string>)
    requires keys != [] && keys[0] == "spec"
    ensures InSpec(PathFrom("", keys))
  {
    assert ChildPath("", "spec") == "spec";
    StaysInSpec("spec", keys[1..]);
  }

  lemma {:induction false} StaysInSpec(path: string, keys: seq<string>)
    requires path == "spec" || "spec." <= path
    ensures PathFrom(path, keys) == "spec" || "spec." <= PathFrom(path, keys)
    decreases |keys|
  {
    if keys != [] {
      assert "spec." <= path + "." + keys[0];
      StaysInSpec(ChildPath(path, keys[0]), keys[1..]);
    }
  }

  /** Nothing in the tree makes a claim. */
  predicate ClaimFree(casing: Casing, position: nat -> string, v: Json, path: string) {
    match v
    case Object(fields) =>
      forall key :: key in fields ==>
        && (InSpec(path) ==> Claims(casing, ControlOf(casing, key), fields[key]) == {})
        && ClaimFree(casing, position, fields[key], ChildPath(path, key))
    case List(items) =>
      forall i :: 0 <= i < |items| ==> ClaimFree(casing, position, items[i], EntryPath(position, path, i))
    case _ => true
  }

  /** No list entry makes a claim; scalar entries never do. */
  predicate UnguardedLists(casing: Casing, position: nat -> string, v: Json, path: string) {
    match v
    case Object(fields) =>
      forall key :: key in fields ==> UnguardedLists(casing, position, fields[key], ChildPath(path, key))
    case List(_) => ClaimFree(casing, position, v, path)
    case _ => true
  }

  lemma {:induction false} ClaimFreeIsAccepted(casing: Casing, position: nat -> string, v: Json, after: Json,
                                               path: string)
    requires ClaimFree(casing, position, v, path)
    ensures Accepts(casing, position, v, after, path)
    decreases v
  {
    match v
    case Object(fields) =>
      forall key | key in fields
        ensures InSpec(path) ==>
                  !Weakened(casing, ControlOf(casing, key), fields[key], FieldOrNull(after, key), key in Fields(after))
        ensures Accepts(casing, position, fields[key], FieldOrNull(after, key), ChildPath(path, key))
      {
        WeakenedLosesAClaim(casing, ControlOf(casing, key), fields[key], FieldOrNull(after, key), key in Fields(after));
        ClaimFreeIsAccepted(casing, position, fields[key], FieldOrNull(after, key), ChildPath(path, key));
      }
    case List(items) =>
      forall i | 0 <= i < |items| && MatchingEntry(items[i], Items(after), i).Some?
        ensures Accepts(casing, position, items[i], MatchingEntry(items[i], Items(after), i).value,
                        EntryPath(position, path, i))
      {
        ClaimFreeIsAccepted(casing, position, items[i], MatchingEntry(items[i], Items(after), i).value,
                            EntryPath(position, path, i));
      }
    case _ =>
  }

  lemma {:induction false} AcceptedKeepsUnder(casing: Casing, position: nat -> string, before: Json, after: Json,
                                              path: string,
                                              keys: seq<string>, key: string)
    requires Accepts(casing, position, before, after, path)
    ensures KeptUnder(casing, before, after, path, keys, key)
    decreases |keys|
  {
    if keys == [] {
      AcceptedField(casing, position, Site(before, after, path), key);
    } else if ValueAt(before, keys).Some? {
      AcceptedKeepsUnder(casing, position, before.fields[keys[0]], FieldOrNull(after, keys[0]),
                         ChildPath(path, keys[0]), keys[1..], key);
      NothingUnderNull(keys[1..]);
    }
  }

  lemma {:induction false} NothingUnderNull(keys: seq<string>)
    ensures ValueOrNull(Null, keys) == Null
  {
  }

  lemma {:induction false} KeepingUnderIsAccepted(casing: Casing, position: nat -> string, before: Json, after: Json,
                                                  path: string)
    requires UnguardedLists(casing, position, before, path)
    requires forall keys, key :: KeptUnder(casing, before, after, path, keys, key)
    ensures Accepts(casing, position, before, after, path)
    decreases before
  {
    match before
    case Object(fields) =>
      forall key | key in fields
        ensures InSpec(path) ==>
                  !Weakened(casing, ControlOf(casing, key), fields[key], FieldOrNull(after, key), key in Fields(after))
        ensures Accepts(casing, position, fields[key], FieldOrNull(after, key), ChildPath(path, key))
      {
        assert KeptUnder(casing, before, after, path, [], key);
        WeakenedLosesAClaim(casing, ControlOf(casing, key), fields[key], FieldOrNull(after, key), key in Fields(after));
        KeptUnderField(casing, before, after, path, key);
        KeepingUnderIsAccepted(casing, position, fields[key], FieldOrNull(after, key), ChildPath(path, key));
      }
    case List(_) => ClaimFreeIsAccepted(casing, position, before, after, path);
    case _ =>
  }

  lemma {:induction false} KeptUnderField(casing: Casing, before: Json, after: Json, path: string, field: string)
    requires field in Fields(before) && forall keys, key :: KeptUnder(casing, before, after, path, keys, key)
    ensures forall keys, key :: KeptUnder(casing, before.fields[field], FieldOrNull(after, field),
                                          ChildPath(path, field), keys, key)
  {
    forall keys, key
      ensures KeptUnder(casing, before.fields[field], FieldOrNull(after, field), ChildPath(path, field), keys, key)
    {
      assert KeptUnder(casing, before, after, path, [field] + keys, key);
      assert ([field] + keys)[1..] == keys;
      NothingUnderNull(keys);
    }
  }

  /** An accepted transition keeps every control under spec that object keys lead to, and for trees whose list entries
      make no claims that is all it checks. */
  lemma {:induction false} AcceptedTransitionKeepsControls(casing: Casing, position: nat -> string, before: Json,
                                                           after: Json)
    ensures Accepts(casing, position, before, after, "") ==>
        forall keys, key :: KeptUnder(casing, before, after, "", keys, key)
    ensures UnguardedLists(casing, position, before, "") ==>
              (forall keys, key :: KeptUnder(casing, before, after, "", keys, key)) ==>
                Accepts(casing, position, before, after, "")
  {
    if Accepts(casing, position, before, after, "") {
      forall keys, key ensures KeptUnder(casing, before, after, "", keys, key) {
        AcceptedKeepsUnder(casing, position, before, after, "", keys, key);
      }
    } else if UnguardedLists(casing, position, before, "") {
      if forall keys, key :: KeptUnder(casing, before, after, "", keys, key) {
        KeepingUnderIsAccepted(casing, position, before, after, "");
      }
    }
  }

  // ----- the walker itself -----

  method FindMatchingEntry(previous: Json, next: seq<Json>, index: nat) returns (entry: Option<Json>)
    ensures entry == MatchingEntry(previous, next, index)
  {
    var name := NameOf(previous);
    if name != "" {
      var i := 0;
      while i < |next|
        invariant i <= |next| && FirstNamed(next, name) == FirstNamed(next[i..], name)
      {
        if NameOf(next[i]) == name {
          return Some(next[i]);
        }
        assert next[i..][1..] == next[i + 1..];
        i := i + 1;
      }
      assert next[i..] == [];
    }
    if index >= |next| {
      return None;
    }
    entry := Some(next[index]);
  }

  /** One field or entry of the walk passes; what Accepts asks of each. */
  predicate FieldPasses(casing: Casing, position: nat -> string, fields: map<string, Json>, after: Json, path: string,
                        key: string)
    requires key in fields
  {
    && (InSpec(path) ==>
        !Weakened(casing, ControlOf(casing, key), fields[key], FieldOrNull(after, key), key in Fields(after)))
    && Accepts(casing, position, fields[key], FieldOrNull(after, key), ChildPath(path, key))
  }

  predicate EntryPasses(casing: Casing, position: nat -> string, items: seq<Json>, after: Json, path: string, i: nat)
    requires i < |items|
  {
    var next := MatchingEntry(items[i], Items(after), i);
    next.Some? ==> Accepts(casing, position, items[i], next.value, EntryPath(position, path, i))
  }

  lemma {:induction false} EntriesDecide(casing: Casing, position: nat -> string, items: seq<Json>, after: Json,
                                         path: string)
    ensures Accepts(casing, position, List(items), after, path)
            <==> forall i :: 0 <= i < |items| ==> EntryPasses(casing, position, items, after, path, i)
  {
    var before := List(items);
    if Accepts(casing, position, before, after, path) {
      forall i | 0 <= i < |items| ensures EntryPasses(casing, position, items, after, path, i) {
        assert before.items[i] == items[i];
      }
    }
    if forall i :: 0 <= i < |items| ==> EntryPasses(casing, position, items, after, path, i) {
      forall i | 0 <= i < |before.items| && MatchingEntry(before.items[i], Items(after), i).Some?
        ensures Accepts(casing, position, before.items[i], MatchingEntry(before.items[i], Items(after), i).value,
                        EntryPath(position, path, i))
      {
        assert EntryPasses(casing, position, items, after, path, i);
      }
    }
  }

  lemma {:induction false} FieldsDecide(casing: Casing, position: nat -> string, fields: map<string, Json>,
                                        after: Json, path: string)
    ensures Accepts(casing, position, Object(fields), after, path)
            <==> forall key :: key in fields ==> FieldPasses(casing, position, fields, after, path, key)
  {
  }

  method WalkSecurityTransition(casing: Casing, position: nat -> string, before: Json, after: Json, path: string)
    returns (accepted: bool)
    ensures accepted == Accepts(casing, position, before, after, path)
    decreases before, 2
  {
    match before
    case Object(fields) =>
      FieldsDecide(casing, position, fields, after, path);
      accepted := WalkFields(casing, position, before, after, path);
    case List(items) =>
      EntriesDecide(casing, position, items, after, path);
      accepted := WalkEntries(casing, position, before, after, path);
    case _ =>
      accepted := true;
  }

  method WalkFields(casing: Casing, position: nat -> string, before: Json, after: Json, path: string)
    returns (accepted: bool)
    requires before.Object?
    ensures accepted <==> forall key :: key in before.fields ==>
        FieldPasses(casing, position, before.fields, after, path, key)
    decreases before, 0
  {
    var remaining := before.fields.Keys;
    while remaining != {}
      invariant remaining <= before.fields.Keys
      invariant forall key :: key in before.fields.Keys - remaining ==>
          FieldPasses(casing, position, before.fields, after, path, key)
      decreases |remaining|
    {
      var key :| key in remaining;
      remaining := remaining - {key};
      var previous, next := before.fields[key], FieldOrNull(after, key);
      if InSpec(path) && Weakened(casing, ControlOf(casing, key), previous, next, key in Fields(after)) {
        return false;
      }
      accepted := WalkSecurityTransition(casing, position, previous, next, ChildPath(path, key));
      if !accepted {
        return;
      }
    }
    accepted := true;
  }

  /** The first entries of a list all pass. */
  predicate FirstPass(casing: Casing, position: nat -> string, items: seq<Json>, after: Json, path: string, n: nat)
    requires n <= |items|
  {
    forall i :: 0 <= i < n ==> EntryPasses(casing, position, items, after, path, i)
  }

  lemma {:induction false} OneMorePasses(casing: Casing, position: nat -> string, items: seq<Json>, after: Json,
                                         path: string, n: nat)
    requires n < |items|
    ensures FirstPass(casing, position, items, after, path, n + 1)
            == (FirstPass(casing, position, items, after, path, n)
                && EntryPasses(casing, position, items, after, path, n))
    ensures !EntryPasses(casing, position, items, after, path, n) ==>
              !FirstPass(casing, position, items, after, path, |items|)
  {
  }

  method WalkEntries(casing: Casing, position: nat -> string, before: Json, after: Json, path: string)
    returns (accepted: bool)
    requires before.List?
    ensures accepted == FirstPass(casing, position, before.items, after, path, |before.items|)
    decreases before, 1
  {
    for index := 0 to |before.items|
      invariant true == FirstPass(casing, position, before.items, after, path, index)
    {
      OneMorePasses(casing, position, before.items, after, path, index);
      accepted := WalkEntry(casing, position, before, after, path, index);
      if !accepted {
        return;
      }
    }
    accepted := true;
  }

  method WalkEntry(casing: Casing, position: nat -> string, before: Json, after: Json, path: string, index: nat)
    returns (accepted: bool)
    requires before.List? && index < |before.items|
    ensures accepted == EntryPasses(casing, position, before.items, after, path, index)
    decreases before, 0
  {
    var entry := before.items[index];
    var next := FindMatchingEntry(entry, Items(after), index);
    if next.None? {
      return true;
    }
    accepted := WalkSecurityTransition(casing, position, entry, next.value, EntryPath(position, path, index));
  }
}
