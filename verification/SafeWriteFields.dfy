/** The SafeWrite relation in the terms of field names and values (safe_write.go). */
module SafeWriteFields {
  import opened JsonValues
  import opened SafeWrite

  // ----- one field -----

  predicate OccursAt(text: string, part: string, i: int) {
    0 <= i <= |text| - |part| && text[i..i + |part|] == part
  }

  ghost predicate Mentions(text: string, part: string) { exists i :: OccursAt(text, part, i) }

  lemma {:induction false} ContainsMeans(text: string, part: string)
    ensures Contains(text, part) <==> Mentions(text, part)
  {
    if part <= text {
      assert OccursAt(text, part, 0);
    } else if text == "" {
      assert forall i :: !OccursAt(text, part, i);
    } else {
      ContainsMeans(text[1..], part);
      if Mentions(text[1..], part) {
        var i :| OccursAt(text[1..], part, i);
        assert text[i + 1..i + 1 + |part|] == text[1..][i..i + |part|];
        assert OccursAt(text, part, i + 1);
      }
      if Mentions(text, part) {
        var i :| OccursAt(text, part, i);
        assert i > 0 && text[1..][i - 1..i - 1 + |part|] == text[i..i + |part|];
        assert OccursAt(text[1..], part, i - 1);
      }
    }
  }

  /** The names of the fields the validator knows. */
  const NAMED: set<string> := {
    "allowPrivilegeEscalation", "automountServiceAccountToken", "runAsNonRoot", "readOnlyRootFilesystem",
    "runAsUser", "runAsGroup", "fsGroup", "runAsUserName", "serviceAccountName", "runtimeClassName",
    "capabilities", "seccompProfile", "appArmorProfile", "seLinuxOptions" }

  /** Any other field whose name, in lower case, mentions AppArmor or seccomp. */
  ghost predicate NamesAProfile(casing: Casing, key: string) {
    key !in NAMED && (Mentions(casing.lower(key), "apparmor") || Mentions(casing.lower(key), "seccomp"))
  }

  predicate Confines(casing: Casing, v: Json) {
    v.String? && v.s != "" && !casing.equalFold(v.s, "unconfined")
  }

  /** The capabilities a value drops: the texts in its drop list. */
  predicate DropsCapability(v: Json, name: string) {
    match FieldOf(v, "drop")
    case Some(List(items)) => String(name) in items
    case _ => false
  }

  /** What the new value of a field owes to the old one. */
  ghost predicate StaysSafe(casing: Casing, key: string, was: Json, now: Json) {
    && (key in {"allowPrivilegeEscalation", "automountServiceAccountToken"} && was == Bool(false) ==>
          now == Bool(false))
    && (key in {"runAsNonRoot", "readOnlyRootFilesystem"} && was == Bool(true) ==> now == Bool(true))
    && (key in {"runAsUser", "runAsGroup", "fsGroup"} && was.Number? && was.n != 0.0 ==> now.Number? && now.n != 0.0)
    && (key == "runAsUserName" && was.String? && casing.equalFold(was.s, "ContainerUser") ==>
          now.String? && casing.equalFold(now.s, "ContainerUser"))
    && (key in {"serviceAccountName", "runtimeClassName"} && was.String? && was.s != "" ==> now == was)
    && (key == "capabilities" ==> forall name :: DropsCapability(was, name) ==> DropsCapability(now, name))
    && (key in {"seccompProfile", "appArmorProfile"} && Confines(casing, FieldOrNull(was, "type")) ==> now == was)
    && (key == "seLinuxOptions" && was != Null ==> now == was)
    && (NamesAProfile(casing, key) && Confines(casing, was) ==> now == was)
  }

  lemma {:induction false} DropsAreStrings(v: Json, name: string)
    ensures DropsCapability(v, name) <==> name in StringsIn(FieldOrNull(v, "drop"))
  {
    var drop := FieldOrNull(v, "drop");
    if drop.List? && String(name) in drop.items {
      var i :| 0 <= i < |drop.items| && drop.items[i] == String(name);
      assert Items(drop)[i].String?;
    }
  }

  /** The claims of a control, said without claims. */
  ghost predicate ControlKept(casing: Casing, control: Control, was: Json, now: Json) {
    match control
    case Off => was == Bool(false) ==> now == Bool(false)
    case On => was == Bool(true) ==> now == Bool(true)
    case NonRoot => was.Number? && was.n != 0.0 ==> now.Number? && now.n != 0.0
    case WindowsUser =>
      was.String? && casing.equalFold(was.s, "ContainerUser") ==>
        now.String? && casing.equalFold(now.s, "ContainerUser")
    case Name => was.String? && was.s != "" ==> now == was
    case Capabilities => forall name :: DropsCapability(was, name) ==> DropsCapability(now, name)
    case Profile => Confines(casing, FieldOrNull(was, "type")) ==> now == was
    case SeLinux => was != Null ==> now == was
    case ProfileText => Confines(casing, was) ==> now == was
    case Uncontrolled => true
  }

  lemma {:induction false} DropsKept(was: Json, now: Json)
    ensures StringsIn(FieldOrNull(was, "drop")) <= StringsIn(FieldOrNull(now, "drop"))
            <==> forall name :: DropsCapability(was, name) ==> DropsCapability(now, name)
  {
    forall name
      ensures DropsCapability(was, name) <==> name in StringsIn(FieldOrNull(was, "drop"))
      ensures DropsCapability(now, name) <==> name in StringsIn(FieldOrNull(now, "drop"))
    {
      DropsAreStrings(was, name);
      DropsAreStrings(now, name);
    }
  }

  lemma {:induction false} ClaimsKeptMeans(casing: Casing, control: Control, was: Json, now: Json)
    ensures Claims(casing, control, was) <= Claims(casing, control, now) <==> ControlKept(casing, control, was, now)
  {
    WeakenedLosesAClaim(casing, control, was, now, true);
    if control.Capabilities? {
      DropsKept(was, now);
    }
  }

  function NamedControl(key: string): Control {
    if key == "allowPrivilegeEscalation" || key == "automountServiceAccountToken" then Off
    else if key == "runAsNonRoot" || key == "readOnlyRootFilesystem" then On
    else if key == "runAsUser" || key == "runAsGroup" || key == "fsGroup" then NonRoot
    else if key == "runAsUserName" then WindowsUser
    else if key == "serviceAccountName" || key == "runtimeClassName" then Name
    else if key == "capabilities" then Capabilities
    else if key == "seLinuxOptions" then SeLinux
    else Profile
  }

  lemma {:induction false} ControlOfNames(casing: Casing, key: string)
    ensures key in NAMED ==> ControlOf(casing, key) == NamedControl(key)
    ensures key !in NAMED ==> ControlOf(casing, key) == if NamesAProfile(casing, key) then ProfileText else Uncontrolled
  {
    ContainsMeans(casing.lower(key), "apparmor");
    ContainsMeans(casing.lower(key), "seccomp");
  }

  /** A field loses no claim exactly when its new value is safe by its name. */
  lemma {:induction false} SafeByName(casing: Casing, key: string, was: Json, now: Json)
    ensures Claims(casing, ControlOf(casing, key), was) <= Claims(casing, ControlOf(casing, key), now)
            <==> StaysSafe(casing, key, was, now)
  {
    ClaimsKeptMeans(casing, ControlOf(casing, key), was, now);
    ControlOfNames(casing, key);
  }

  // ----- whole objects -----

  /** If the two objects lie in a spec, this field of the old one has a safe counterpart in the new one. */
  ghost predicate SiteStaysSafe(casing: Casing, site: Site, key: string) {
    InSpec(site.path) && FieldOf(site.before, key).Some? ==>
      StaysSafe(casing, key, FieldOf(site.before, key).value, FieldOrNull(site.after, key))
  }

  ghost predicate SafeOn(casing: Casing, position: nat -> string, site: Site, route: seq<Turn>, key: string) {
    Follow(position, site, route).Some? ==> SiteStaysSafe(casing, Follow(position, site, route).value, key)
  }

  lemma {:induction false} KeptIsSafe(casing: Casing, site: Site, key: string)
    ensures FieldKept(casing, site, key) <==> SiteStaysSafe(casing, site, key)
  {
    if key in Fields(site.before) {
      SafeByName(casing, key, site.before.fields[key], FieldOrNull(site.after, key));
    }
  }

  /** The walker accepts a transition exactly when every field of a spec, on every route through keys and matched list
      entries, stays safe by its name; a field with no such name is never refused. */
  lemma {:induction false} AcceptsMeansSafe(casing: Casing, position: nat -> string, before: Json, after: Json)
    ensures Accepts(casing, position, before, after, "")
            <==> forall route, key :: SafeOn(casing, position, Site(before, after, ""), route, key)
  {
    var site := Site(before, after, "");
    AcceptsMeansKept(casing, position, before, after);
    forall route, key
      ensures KeptOn(casing, position, site, route, key) <==> SafeOn(casing, position, site, route, key)
    {
      if Follow(position, site, route).Some? {
        KeptIsSafe(casing, Follow(position, site, route).value, key);
      }
    }
  }

  /** Under a top-level spec, reached by keys alone: if the old object has the field, the new one has it safe. */
  lemma {:induction false} SpecFieldsStaySafe(casing: Casing, position: nat -> string, before: Json, after: Json,
                                              keys: seq<string>, key: string)
    requires Accepts(casing, position, before, after, "") && keys != [] && keys[0] == "spec"
    requires ValueAt(before, keys).Some? && FieldOf(ValueAt(before, keys).value, key).Some?
    ensures StaysSafe(casing, key, FieldOf(ValueAt(before, keys).value, key).value,
                      FieldOrNull(ValueOrNull(after, keys), key))
  {
    AcceptedKeepsUnder(casing, position, before, after, "", keys, key);
    SpecKeysAreInSpec(keys);
    KeptIsSafe(casing, Site(ValueAt(before, keys).value, ValueOrNull(after, keys), PathFrom("", keys)), key);
  }

  /** Below a field of a top-level spec every route stays in the spec, through list entries too. */
  lemma {:induction false} RoutesStayInSpec(position: nat -> string, site: Site, route: seq<Turn>)
    requires "spec." <= site.path
    ensures Follow(position, site, route).Some? ==> "spec." <= Follow(position, site, route).value.path
    decreases |route|
  {
    if route != [] && Next(position, site, route[0]).Some? {
      if route[0].Key? {
        assert "spec." <= site.path + "." + route[0].key;
      } else {
        assert "spec." <= EntryPath(position, site.path, route[0].index);
      }
      RoutesStayInSpec(position, Next(position, site, route[0]).value, route[1..]);
    }
  }

  /** So in an accepted transition every field of every object below a field of the spec, containers included, stays
      safe against its counterpart. */
  lemma {:induction false} SpecRoutesStaySafe(casing: Casing, position: nat -> string, before: Json, after: Json,
                                              field: string, route: seq<Turn>, site: Site, key: string)
    requires Accepts(casing, position, before, after, "")
    requires Follow(position, Site(before, after, ""), [Key("spec"), Key(field)] + route) == Some(site)
    requires FieldOf(site.before, key).Some?
    ensures StaysSafe(casing, key, FieldOf(site.before, key).value, FieldOrNull(site.after, key))
  {
    var whole, start := [Key("spec"), Key(field)] + route, Site(before, after, "");
    assert whole[1..] == [Key(field)] + route && whole[1..][1..] == route;
    AcceptedKeeps(casing, position, start, whole, key);
    KeptIsSafe(casing, site, key);
    var spec := Next(position, start, Key("spec")).value;
    assert spec.path == "spec" by { assert ChildPath("", "spec") == "spec"; }
    var below := Next(position, spec, Key(field)).value;
    assert below.path == "spec." + field by {
      assert "spec" + "." + field == "spec." + field;
      assert ChildPath("spec", field) == "spec" + "." + field;
    }
    RoutesStayInSpec(position, below, route);
  }

  // ----- which entries are compared -----

  /** This entry is the first of its list with the name. */
  predicate FirstAt(list: seq<Json>, name: string, k: nat) {
    k < |list| && TextAt(list[k], ["name"]) == name && forall j :: 0 <= j < k ==> TextAt(list[j], ["name"]) != name
  }

  lemma {:induction false} NameIsAt(v: Json)
    ensures NameOf(v) == TextAt(v, ["name"])
  {
    var keys := ["name"];
    assert keys[1..] == [];
  }

  lemma {:induction false} FirstNamedIsFirst(list: seq<Json>, name: string, k: nat)
    ensures FirstAt(list, name, k) ==> FirstNamed(list, name) == Some(list[k])
    ensures (forall j :: 0 <= j < |list| ==> TextAt(list[j], ["name"]) != name) ==> FirstNamed(list, name) == None
  {
    if list != [] {
      NameIsAt(list[0]);
      FirstNamedIsFirst(list[1..], name, if k > 0 then k - 1 else 0);
      assert forall j :: 0 <= j < |list| - 1 ==> list[1..][j] == list[j + 1];
      if k > 0 && FirstAt(list, name, k) {
        assert FirstAt(list[1..], name, k - 1);
      }
    }
  }

  /** A named entry is compared with the first of its name in the new list, and any other with the one at its index. */
  lemma {:induction false} EntryIsMatched(previous: Json, next: seq<Json>, index: nat, k: nat)
    ensures var name := TextAt(previous, ["name"]);
            if name != "" && FirstAt(next, name, k) then MatchingEntry(previous, next, index) == Some(next[k])
            else if name == "" || (forall j :: 0 <= j < |next| ==> TextAt(next[j], ["name"]) != name) then
              MatchingEntry(previous, next, index) == if index < |next| then Some(next[index]) else None
            else true
  {
    NameIsAt(previous);
    FirstNamedIsFirst(next, NameOf(previous), k);
  }

  // ----- which objects lie in a spec -----

  predicate Dotless(keys: seq<string>) {
    forall i :: 0 <= i < |keys| ==> keys[i] != "" && '.' !in keys[i]
  }

  /** The keys after the first, each behind a dot. */
  function Tail(keys: seq<string>): string {
    if keys == [] then "" else "." + keys[0] + Tail(keys[1..])
  }

  lemma {:induction false} PathIsJoined(path: string, keys: seq<string>)
    requires path != "" && path[0] != '.'
    ensures PathFrom(path, keys) == path + Tail(keys)
    decreases |keys|
  {
    if keys != [] {
      PathIsJoined(path + "." + keys[0], keys[1..]);
      assert path + "." + keys[0] + Tail(keys[1..]) == path + ("." + keys[0] + Tail(keys[1..]));
    } else {
      assert path + "" == path;
    }
  }

  /** A part that starts with a dot is not found inside a text without dots. */
  lemma {:induction false} SkipDotless(text: string, rest: string, part: string)
    requires '.' !in text && part != "" && part[0] == '.'
    ensures Contains(text + rest, part) <==> Contains(rest, part)
  {
    if text == "" {
      assert text + rest == rest;
    } else {
      SkipDotless(text[1..], rest, part);
      assert (text + rest)[1..] == text[1..] + rest;
      assert (text + rest)[0] == text[0];
    }
  }

  lemma {:induction false} StartsWithSpec(key: string, rest: string, spec: string)
    requires spec == "spec" && '.' !in key && (rest == "" || rest[0] == '.')
    ensures spec + "." <= key + rest <==> key == spec && rest != ""
  {
    var whole := key + rest;
    if spec + "." <= whole {
      assert whole[4] == '.' && forall i :: 0 <= i < 4 ==> whole[i] == spec[i];
      assert forall i :: 0 <= i < |key| ==> key[i] == whole[i] && key[i] != '.';
      assert rest != "" ==> whole[|key|] == '.';
      assert spec[0] != '.' && spec[1] != '.' && spec[2] != '.' && spec[3] != '.';
      assert |key| == 4;
      assert key == spec;
    }
    if key == spec && rest != "" {
      assert whole == spec + rest && rest[0] == '.';
    }
  }

  ghost predicate SpecBefore(keys: seq<string>, end: int) {
    exists i :: 0 <= i < end && i < |keys| && keys[i] == "spec"
  }

  lemma {:induction false} SpecInTail(keys: seq<string>, part: string)
    requires Dotless(keys) && part == ".spec."
    ensures Contains(Tail(keys), part) <==> SpecBefore(keys, |keys| - 1)
  {
    if keys == [] {
      assert !(part <= "");
    } else {
      var key, rest := keys[0], Tail(keys[1..]);
      SpecInTail(keys[1..], part);
      SkipDotless(key, rest, part);
      StartsWithSpec(key, rest, "spec");
      var tail := Tail(keys);
      assert tail[1..] == key + rest;
      assert part == "." + ("spec" + ".");
      assert part <= tail <==> "spec" + "." <= key + rest by {
        assert tail == "." + (key + rest);
      }
      SpecShifts(keys);
    }
  }

  lemma {:induction false} SpecShifts(keys: seq<string>)
    requires keys != []
    ensures SpecBefore(keys, |keys| - 1) <==> (keys[0] == "spec" && |keys| > 1) || SpecBefore(keys[1..], |keys| - 2)
  {
    if SpecBefore(keys[1..], |keys| - 2) {
      var i :| 0 <= i < |keys| - 2 && keys[1..][i] == "spec";
      assert keys[i + 1] == "spec";
    }
    if SpecBefore(keys, |keys| - 1) && keys[0] != "spec" {
      var i :| 0 <= i < |keys| - 1 && keys[i] == "spec";
      assert keys[1..][i - 1] == "spec";
    }
  }

  /** Exactly: an object reached by keys without dots lies in a spec if its first key is spec or it lies below a later
      key spec. */
  lemma {:induction false} InSpecExactly(keys: seq<string>)
    requires Dotless(keys) && keys != []
    ensures InSpec(PathFrom("", keys)) <==> keys[0] == "spec" || SpecBefore(keys, |keys| - 1)
  {
    var key, rest, path := keys[0], Tail(keys[1..]), PathFrom("", keys);
    assert ChildPath("", key) == key;
    PathIsJoined(key, keys[1..]);
    StartsWithSpec(key, rest, "spec");
    SkipDotless(key, rest, ".spec.");
    SpecInTail(keys[1..], ".spec.");
    SpecShifts(keys);
    assert "spec" + "." == "spec.";
  }
}
