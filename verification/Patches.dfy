/** Patch application and the resourceVersion guard (operations.go). */
module Patches {
  import opened JsonValues
  import Decimals
  import JsonPointers

  /** JSON Merge Patch, section 2 of RFC 7396. */
  function MergePatch(target: Json, patch: Json): Json
    decreases patch
  {
    match patch
    case Object(changes) =>
      var base := Fields(target);
      Object(map key | key in base.Keys + changes.Keys && !(key in changes && changes[key].Null?) ::
               if key in changes then MergePatch(if key in base then base[key] else Null, changes[key])
               else base[key])
    case _ => patch
  }

  // ----- what a merge patch does, path by path -----

  /** What a merge patch says about a path of object keys: nothing, that an object is there, or the value on the way
      that replaces whatever was there, with the keys that remain. */
  datatype Touch = Untouched | Within | Replaced(value: Json, rest: seq<string>)

  function TouchOf(patch: Json, keys: seq<string>): Touch
    decreases |keys|
  {
    if !patch.Object? then Replaced(patch, keys)
    else if keys == [] then Within
    else if keys[0] !in patch.fields then Untouched
    else TouchOf(patch.fields[keys[0]], keys[1..])
  }

  /** A merge patch leaves the paths it does not mention, puts its own values where it has them and removes what it
      sets to null. */
  lemma {:induction false} MergeMeaning(target: Json, patch: Json, keys: seq<string>)
    ensures var merged := ValueAt(MergePatch(target, patch), keys);
            match TouchOf(patch, keys)
            case Untouched => merged == ValueAt(target, keys)
            case Within => merged.Some? && merged.value.Object?
            case Replaced(value, rest) =>
              merged == if value.Null? && rest != keys then None else ValueAt(value, rest)
    decreases |keys|
  {
    if patch.Object? && keys != [] && keys[0] in patch.fields {
      var child := if FieldOf(target, keys[0]).Some? then FieldOf(target, keys[0]).value else Null;
      MergeMeaning(child, patch.fields[keys[0]], keys[1..]);
      TouchLeavesLess(patch.fields[keys[0]], keys[1..]);
    }
  }

  lemma {:induction false} TouchLeavesLess(patch: Json, keys: seq<string>)
    ensures TouchOf(patch, keys).Replaced? ==> |TouchOf(patch, keys).rest| <= |keys|
    decreases |keys|
  {
    if patch.Object? && keys != [] && keys[0] in patch.fields {
      TouchLeavesLess(patch.fields[keys[0]], keys[1..]);
    }
  }

  /** One value is set under these keys, and no path that parts from them changes. */
  ghost predicate OnlySets(before: Json, after: Json, path: seq<string>, value: Json) {
    && ValueAt(after, path) == Some(value)
    && forall keys :: !(keys <= path) && !(path <= keys) ==> ValueAt(after, keys) == ValueAt(before, keys)
  }

  /** A patch that says one thing. */
  function Nest(path: seq<string>, value: Json): Json {
    if path == [] then value else Object(map[path[0] := Nest(path[1..], value)])
  }

  lemma {:induction false} NestTouches(path: seq<string>, value: Json, keys: seq<string>)
    requires !value.Object?
    ensures if path <= keys then TouchOf(Nest(path, value), keys) == Replaced(value, keys[|path|..])
            else if keys <= path then TouchOf(Nest(path, value), keys).Within?
            else TouchOf(Nest(path, value), keys).Untouched?
    decreases |path|
  {
    if path != [] && keys != [] {
      if keys[0] == path[0] {
        NestTouches(path[1..], value, keys[1..]);
        assert path <= keys <==> path[1..] <= keys[1..];
        assert keys <= path <==> keys[1..] <= path[1..];
      }
    }
  }

  /** Merging such a patch sets that one value, in any object at all. */
  lemma {:induction false} NestSets(target: Json, path: seq<string>, value: Json)
    requires path != [] && !value.Object? && !value.Null?
    ensures OnlySets(target, MergePatch(target, Nest(path, value)), path, value)
  {
    NestTouches(path, value, path);
    MergeMeaning(target, Nest(path, value), path);
    forall keys | !(keys <= path) && !(path <= keys)
      ensures ValueAt(MergePatch(target, Nest(path, value)), keys) == ValueAt(target, keys)
    {
      NestTouches(path, value, keys);
      MergeMeaning(target, Nest(path, value), keys);
    }
  }

  // ----- the guard -----

  function VersionField(v: Json): Option<Json> {
    FieldOf(Metadata(v), "resourceVersion")
  }

  /** The member that a reference token names in an array, section 4 of RFC 6901: a number without leading zeros. */
  function IndexOf(token: string): Option<nat> {
    if token != "" && Decimals.AllDigits(token) && Decimals.Itoa(Decimals.Magnitude(token)) == token
    then Some(Decimals.Magnitude(token)) else None
  }

  /** The value a decoded pointer designates, section 4 of RFC 6901. */
  function Resolve(v: Json, tokens: seq<string>): Option<Json>
    decreases |tokens|
  {
    if tokens == [] then Some(v)
    else
      match v
      case Object(fields) => if tokens[0] in fields then Resolve(fields[tokens[0]], tokens[1..]) else None
      case List(items) =>
        (match IndexOf(tokens[0])
         case Some(i) => if i < |items| then Resolve(items[i], tokens[1..]) else None
         case None => None)
      case _ => None
  }

  /** The empty pointer is the whole document. */
  function Tokens(path: string): Option<seq<string>> {
    if path == "" then Some([]) else JsonPointers.Decode(path)
  }

  /** The test operation, section 4.6 of RFC 6902: the target must exist and equal the value. */
  predicate TestHolds(document: Json, operation: Json) {
    match FieldOf(operation, "path")
    case Some(String(path)) =>
      (match Tokens(path)
       case Some(tokens) =>
         FieldOf(operation, "value").Some? && Resolve(document, tokens) == FieldOf(operation, "value")
       case None => false)
    case _ => false
  }

  /** How a server carries out the operations other than test: a new document, or a failure. */
  type PatchEdit = (Json, Json) -> Option<Json>

  function PatchStep(edit: PatchEdit, document: Json, operation: Json): Option<Json> {
    if FieldOf(operation, "op") != Some(String("test")) then edit(document, operation)
    else if TestHolds(document, operation) then Some(document)
    else None
  }

  /** Operations apply in order and the first failure fails the whole patch, section 5 of RFC 6902. */
  function ApplyJsonPatch(edit: PatchEdit, document: Json, operations: seq<Json>): Option<Json>
    decreases |operations|
  {
    if operations == [] then Some(document)
    else
      match PatchStep(edit, document, operations[0])
      case None => None
      case Some(next) => ApplyJsonPatch(edit, next, operations[1..])
  }

  const VERSION_POINTER := "/" + "metadata" + ("/" + "resourceVersion")

  function VersionTest(version: string): Json {
    Object(map["op" := String("test"), "path" := String(VERSION_POINTER), "value" := String(version)])
  }

  /** addPatchResourceVersion on a merge patch; None is the invalid_input refusal. */
  function GuardMergePatch(body: Json, version: string): Option<Json> {
    if !body.Object? then None
    else
      var metadata := if "metadata" in body.fields then Fields(body.fields["metadata"]) else map[];
      Some(Object(body.fields["metadata" := Object(metadata["resourceVersion" := String(version)])]))
  }

  /** addPatchResourceVersion on a JSON Patch; a JSON null body decodes to no operations. */
  function GuardJsonPatch(body: Json, version: string): Option<Json> {
    match body
    case List(operations) => Some(List([VersionTest(version)] + operations))
    case Null => Some(List([VersionTest(version)]))
    case _ => None
  }

  /** The version named by an object, or "" when the field is absent or not a string. */
  function VersionOf(v: Json): string {
    MetadataText(v, "resourceVersion")
  }

  /** The field is the one the pointer /metadata/resourceVersion designates. */
  lemma {:induction false} VersionFieldIsAtPath(v: Json)
    ensures VersionField(v) == ValueAt(v, ["metadata", "resourceVersion"])
  {
    assert ["metadata", "resourceVersion"][1..] == ["resourceVersion"];
    assert ["resourceVersion"][1..] == [];
  }

  /** The patch says nothing about metadata, or only object fields compatible with this version. */
  predicate NamesNoOtherVersion(body: Json, version: string) {
    body.Object? && ("metadata" in body.fields ==>
      && body.fields["metadata"].Object?
      && ("resourceVersion" in body.fields["metadata"].fields ==>
            body.fields["metadata"].fields["resourceVersion"] == String(version)))
  }

  /** On a target at that version the guarded patch gives the original's result exactly when the original
      does not itself replace metadata or name another version. */
  lemma {:induction false} GuardedMergeKeepsMeaning(target: Json, body: Json, version: string)
    requires VersionField(target) == Some(String(version))
    requires body.Object?
    ensures MergePatch(target, GuardMergePatch(body, version).value) == MergePatch(target, body)
            <==> NamesNoOtherVersion(body, version)
  {
    var guarded := GuardMergePatch(body, version).value;
    var plain, safe := MergePatch(target, body), MergePatch(target, guarded);
    MergedField(target, body, "metadata");
    MergedField(target, guarded, "metadata");
    forall key | key != "metadata"
      ensures FieldOf(plain, key) == FieldOf(safe, key)
    {
      MergedField(target, body, key);
      MergedField(target, guarded, key);
    }
    GuardedMetadata(target.fields["metadata"], body, version);
    if FieldOf(plain, "metadata") == FieldOf(safe, "metadata") {
      SameFields(plain, safe);
    }
  }

  lemma {:induction false} SameFields(a: Json, b: Json)
    requires a.Object? && b.Object?
    requires forall key :: FieldOf(a, key) == FieldOf(b, key)
    ensures a == b
  {
    forall key ensures key in a.fields <==> key in b.fields {
      assert FieldOf(a, key) == FieldOf(b, key);
    }
    forall key | key in a.fields ensures a.fields[key] == b.fields[key] {
      assert FieldOf(a, key) == FieldOf(b, key);
    }
    assert a.fields == b.fields;
  }

  lemma {:induction false} MergedField(target: Json, patch: Json, key: string)
    requires patch.Object?
    ensures FieldOf(MergePatch(target, patch), key) ==
            if key !in patch.fields then FieldOf(target, key)
            else if patch.fields[key].Null? then None
            else Some(MergePatch(if FieldOf(target, key).Some? then FieldOf(target, key).value else Null,
                                 patch.fields[key]))
  {
  }

  /** The metadata the guarded patch produces, compared with what the plain patch does to it. */
  lemma {:induction false} GuardedMetadata(metadata: Json, body: Json, version: string)
    requires metadata.Object? && FieldOf(metadata, "resourceVersion") == Some(String(version))
    requires body.Object?
    ensures var guard := GuardMergePatch(body, version).value.fields["metadata"];
            var safe := MergePatch(metadata, guard);
            && safe.Object?
            && ("metadata" !in body.fields ==> safe == metadata)
            && ("metadata" in body.fields ==>
                  (safe == MergePatch(metadata, body.fields["metadata"]) && !body.fields["metadata"].Null?
                   <==> NamesNoOtherVersion(body, version)))
  {
    var guard := GuardMergePatch(body, version).value.fields["metadata"];
    var safe := MergePatch(metadata, guard);
    var plainPatch := if "metadata" in body.fields then body.fields["metadata"] else Object(map[]);
    forall key
      ensures key != "resourceVersion" && plainPatch.Object? ==>
                FieldOf(safe, key) == FieldOf(MergePatch(metadata, plainPatch), key)
      ensures "metadata" !in body.fields ==> FieldOf(safe, key) == FieldOf(metadata, key)
    {
      MergedField(metadata, guard, key);
      if plainPatch.Object? {
        MergedField(metadata, plainPatch, key);
      }
    }
    MergedField(metadata, guard, "resourceVersion");
    if "metadata" !in body.fields {
      SameFields(safe, metadata);
    } else if plainPatch.Object? {
      MergedField(metadata, plainPatch, "resourceVersion");
      if NamesNoOtherVersion(body, version) {
        SameFields(safe, MergePatch(metadata, plainPatch));
      } else {
        assert plainPatch.fields["resourceVersion"] != String(version);
      }
    }
  }

  /** Whatever the target, the guarded merge patch asks the server for the planned version. */
  lemma {:induction false} GuardedMergeNamesVersion(target: Json, body: Json, version: string)
    requires body.Object?
    ensures VersionOf(MergePatch(target, GuardMergePatch(body, version).value)) == version
  {
    var guarded := GuardMergePatch(body, version).value;
    var merged := MergePatch(target, guarded);
    MergedField(target, guarded, "metadata");
    var metadata := if FieldOf(target, "metadata").Some? then FieldOf(target, "metadata").value else Null;
    MergedField(metadata, guarded.fields["metadata"], "resourceVersion");
  }

  // ----- the JSON Patch guard -----

  lemma {:induction false} PlainEscape(segment: string)
    requires '~' !in segment && '/' !in segment
    ensures JsonPointers.Escape(segment) == segment
  {
    if segment != "" {
      PlainEscape(segment[1..]);
      assert [segment[0]] + segment[1..] == segment;
    }
  }

  lemma {:induction false} TwoTokens(first: string, second: string)
    requires '~' !in first && '/' !in first && '~' !in second && '/' !in second
    ensures JsonPointers.Decode("/" + first + ("/" + second)) == Some([first, second])
  {
    var tokens := [first, second];
    PlainEscape(first);
    PlainEscape(second);
    assert tokens[1..] == [second] && [second][1..] == [];
    assert JsonPointers.Pointer([second]) == "/" + second + "" == "/" + second;
    JsonPointers.DecodePointer(tokens);
  }

  lemma {:induction false} VersionPointerDecodes(path: string)
    requires path == VERSION_POINTER
    ensures Tokens(path) == Some(["metadata", "resourceVersion"])
  {
    var first, second := "metadata", "resourceVersion";
    assert path == "/" + first + ("/" + second);
    TwoTokens(first, second);
  }

  /** A token that starts with a letter names no array member. */
  lemma {:induction false} VersionIsResolved(document: Json)
    ensures Resolve(document, ["metadata", "resourceVersion"]) == VersionField(document)
  {
    var tokens := ["metadata", "resourceVersion"];
    assert tokens[1..] == ["resourceVersion"] && ["resourceVersion"][1..] == [];
    assert IndexOf("metadata") == None by { assert !Decimals.IsDigit("metadata"[0]); }
    assert IndexOf("resourceVersion") == None by { assert !Decimals.IsDigit("resourceVersion"[0]); }
    if document.Object? && "metadata" in document.fields {
      var metadata := document.fields["metadata"];
      assert Resolve(metadata, ["resourceVersion"]) == FieldOf(metadata, "resourceVersion");
    }
  }

  lemma {:induction false} TestMeans(edit: PatchEdit, document: Json, test: Json, path: string, tokens: seq<string>,
                                     value: Json)
    requires FieldOf(test, "op") == Some(String("test")) && FieldOf(test, "path") == Some(String(path))
    requires FieldOf(test, "value") == Some(value) && Tokens(path) == Some(tokens)
    ensures PatchStep(edit, document, test) == if Resolve(document, tokens) == Some(value) then Some(document) else None
  {
  }

  /** The guard's own operation passes, without effect, exactly at that version. */
  lemma {:induction false} VersionTestMeans(edit: PatchEdit, document: Json, test: Json, version: string)
    requires test == VersionTest(version)
    ensures PatchStep(edit, document, test) ==
            if VersionField(document) == Some(String(version)) then Some(document) else None
  {
    var path := test.fields["path"].s;
    VersionPointerDecodes(path);
    VersionIsResolved(document);
    TestMeans(edit, document, test, path, ["metadata", "resourceVersion"], String(version));
  }

  /** The guarded JSON Patch behaves as the original at that version and fails whole at any other. */
  lemma {:induction false} GuardedJsonPatchKeepsMeaning(edit: PatchEdit, document: Json, operations: seq<Json>,
                                                        version: string)
    ensures ApplyJsonPatch(edit, document, GuardJsonPatch(List(operations), version).value.items) ==
            if VersionField(document) == Some(String(version))
            then ApplyJsonPatch(edit, document, operations) else None
  {
    var guarded := [VersionTest(version)] + operations;
    assert guarded[0] == VersionTest(version) && guarded[1..] == operations;
    VersionTestMeans(edit, document, guarded[0], version);
  }
}
