/** What the server is asked to do, in the terms of the plan call rather than of the request that is sent
    (operations.go). */
module PlannedChanges {
  import opened JsonValues
  import opened Operations
  import opened Patches
  import opened Execution

  const REPLICAS := ["spec", "replicas"]
  const RESTARTED_AT := ["spec", "template", "metadata", "annotations", "mcp.supek8smcp.io/restartedAt"]

  /** The name a plan is for: its own, or else the one its object carries. */
  function TargetName(op: Operation): string {
    if op.name != "" || op.manifest.None? then op.name
    else TextAt(Object(op.manifest.value), ["metadata", "name"])
  }

  predicate HoldsMetadata(manifest: map<string, Json>) {
    "metadata" in manifest ==> manifest["metadata"].Object?
  }

  /** The object is the plan's own in every field, with the type, name and namespace the plan names. */
  ghost predicate ObjectAsAsked(op: Operation, sent: Json) {
    && op.manifest.Some? && HoldsMetadata(op.manifest.value) && sent.Object?
    && var asked := Object(op.manifest.value);
       && (forall key :: key !in {"apiVersion", "kind", "metadata"} ==> FieldOf(sent, key) == FieldOf(asked, key))
       && FieldOf(sent, "apiVersion") == Some(String(op.apiVersion))
       && FieldOf(sent, "kind") == Some(String(op.kind))
       && MetadataAsAsked(op, sent, asked)
  }

  ghost predicate MetadataAsAsked(op: Operation, sent: Json, asked: Json) {
    && (forall key :: key !in {"name", "namespace", "resourceVersion"} ==>
          FieldOf(Metadata(sent), key) == FieldOf(Metadata(asked), key))
    && TextAt(sent, ["metadata", "name"]) == TargetName(op)
    && (if op.namespaced then TextAt(sent, ["metadata", "namespace"]) == op.namespace
        else FieldOf(Metadata(sent), "namespace") == FieldOf(Metadata(asked), "namespace"))
  }

  predicate SameVersion(one: Json, other: Json) {
    TextAt(one, ["metadata", "resourceVersion"]) == TextAt(other, ["metadata", "resourceVersion"])
  }

  /** The Scale view of the object, with nothing but the replicas changed. */
  ghost predicate ScaledTo(before: Json, after: Json, replicas: int) {
    && ValueAt(after, REPLICAS) == Some(Number(replicas as real))
    && forall keys :: keys != [] && keys[0] in {"metadata", "spec"} && !(keys <= REPLICAS) && !(REPLICAS <= keys) ==>
         ValueAt(after, keys) == ValueAt(before, keys)
  }

  /** The plan's own merge patch, which cannot move the object to another version. */
  ghost predicate MergedAsAsked(before: Json, after: Json, patch: Json) {
    && patch.Object? && SameVersion(before, after)
    && (forall key :: key != "metadata" ==> FieldOf(after, key) == FieldOf(MergePatch(before, patch), key))
    && (NamesNoOtherVersion(patch, VersionOf(before)) ==> after == MergePatch(before, patch))
  }

  /** The operations of a JSON Patch; a null patch has none. */
  function OperationsOf(patch: Json): seq<Json> { if patch.List? then patch.items else [] }

  ghost predicate PatchedAsAsked(server: Server, op: Operation, before: Json, after: Json) {
    && op.patch.Some?
    && if op.patchType == "json" then ApplyJsonPatch(server.edit, before, OperationsOf(op.patch.value)) == Some(after)
       else MergedAsAsked(before, after, op.patch.value)
  }

  ghost predicate AppliedAsAsked(server: Server, op: Operation, before: Json, after: Json) {
    exists sent :: ObjectAsAsked(op, sent) && SameVersion(sent, before) &&
                   server.apply(before, sent, op.force) == Some(after)
  }

  ghost predicate RestartedAsAsked(op: Operation, stamp: string, before: Json, after: Json) {
    if op.patch.Some? then MergedAsAsked(before, after, op.patch.value)
    else OnlySets(before, after, RESTARTED_AT, String(stamp))
  }

  /** What the server agreed to on the object it held is what the operation asks for. */
  ghost predicate AsAsked(server: Server, op: Operation, stamp: string, before: Option<Json>, verdict: Verdict) {
    match op.action
    case Create =>
      && before.None? && verdict.Stored? && ObjectAsAsked(op, verdict.content)
      && SameVersion(verdict.content, Object(op.manifest.value))
    case Update =>
      && before.Some? && verdict.Stored? && ObjectAsAsked(op, verdict.content)
      && SameVersion(verdict.content, before.value)
    case Apply => before.Some? && verdict.Stored? && AppliedAsAsked(server, op, before.value, verdict.content)
    case Patch => before.Some? && verdict.Stored? && PatchedAsAsked(server, op, before.value, verdict.content)
    case Restart => before.Some? && verdict.Stored? && RestartedAsAsked(op, stamp, before.value, verdict.content)
    case Scale =>
      && before.Some? && verdict.Stored? && op.replicas.Some?
      && ScaledTo(before.value, verdict.content, op.replicas.value)
    case Delete => before.Some? && verdict.Removed?
    case Exec => false
    case Attach => false
  }

  // ----- objects -----

  /** Writing a metadata field writes that field and nothing else, if the object can hold metadata. */
  lemma {:induction false} SetMetadataSets(manifest: map<string, Json>, key: string, value: string, field: string)
    requires HoldsMetadata(manifest)
    ensures var after := Object(SetMetadata(manifest, key, value));
            && HoldsMetadata(after.fields)
            && MetadataText(after, key) == value
            && (field != key ==> FieldOf(Metadata(after), field) == FieldOf(Metadata(Object(manifest)), field))
  {
  }

  lemma {:induction false} OtherFieldsStay(manifest: map<string, Json>, key: string, value: string, field: string)
    requires field != "metadata"
    ensures FieldOf(Object(SetMetadata(manifest, key, value)), field) == FieldOf(Object(manifest), field)
  {
  }

  /** An object that ends up with a name could hold metadata from the start. */
  lemma {:induction false} NamedHoldsMetadata(manifest: map<string, Json>, key: string, value: string)
    requires NameOf(Object(SetMetadata(manifest, key, value))) != ""
    ensures HoldsMetadata(manifest)
  {
  }

  function Typed(op: Operation): map<string, Json>
    requires op.manifest.Some?
  {
    op.manifest.value["apiVersion" := String(op.apiVersion)]["kind" := String(op.kind)]
  }

  lemma {:induction false} TypedKeeps(op: Operation, field: string)
    requires op.manifest.Some?
    ensures Metadata(Object(Typed(op))) == Metadata(Object(op.manifest.value))
    ensures HoldsMetadata(Typed(op)) == HoldsMetadata(op.manifest.value)
    ensures field !in {"apiVersion", "kind"} ==>
              FieldOf(Object(Typed(op)), field) == FieldOf(Object(op.manifest.value), field)
    ensures FieldOf(Object(Typed(op)), "apiVersion") == Some(String(op.apiVersion))
    ensures FieldOf(Object(Typed(op)), "kind") == Some(String(op.kind))
  {
  }

  lemma {:induction false} FieldsAsAsked(op: Operation, version: string, field: string)
    requires op.manifest.Some? && field != "metadata"
    ensures FieldOf(Object(OperationObject(op).value), field) == FieldOf(Object(Typed(op)), field)
    ensures FieldOf(AtVersion(OperationObject(op).value, version), field) == FieldOf(Object(Typed(op)), field)
  {
    var named := if op.name != "" then SetMetadata(Typed(op), "name", op.name) else Typed(op);
    OtherFieldsStay(Typed(op), "name", op.name, field);
    OtherFieldsStay(named, "namespace", op.namespace, field);
    OtherFieldsStay(OperationObject(op).value, "resourceVersion", version, field);
  }

  lemma {:induction false} OperationMetadata(op: Operation, field: string)
    requires op.manifest.Some? && op.name != "" && NameOf(Object(OperationObject(op).value)) != ""
    ensures var sent, asked := Object(OperationObject(op).value), Object(op.manifest.value);
            && HoldsMetadata(sent.fields) && HoldsMetadata(asked.fields)
            && MetadataText(sent, "name") == op.name
            && (field !in {"name", "namespace"} ==> FieldOf(Metadata(sent), field) == FieldOf(Metadata(asked), field))
            && (if op.namespaced then MetadataText(sent, "namespace") == op.namespace
                else FieldOf(Metadata(sent), "namespace") == FieldOf(Metadata(asked), "namespace"))
  {
    var named := SetMetadata(Typed(op), "name", op.name);
    TypedKeeps(op, field);
    if op.namespaced {
      NamedHoldsMetadata(named, "namespace", op.namespace);
    }
    NamedHoldsMetadata(Typed(op), "name", op.name);
    SetMetadataSets(Typed(op), "name", op.name, field);
    SetMetadataSets(Typed(op), "name", op.name, "namespace");
    SetMetadataSets(named, "namespace", op.namespace, field);
    SetMetadataSets(named, "namespace", op.namespace, "name");
  }

  /** What operationObject builds for a named plan is the plan's object. */
  lemma {:induction false} OperationObjectAsAsked(op: Operation)
    requires op.manifest.Some? && op.name != "" && NameOf(Object(OperationObject(op).value)) != ""
    ensures ObjectAsAsked(op, Object(OperationObject(op).value))
    ensures SameVersion(Object(OperationObject(op).value), Object(op.manifest.value))
  {
    var sent, asked := Object(OperationObject(op).value), Object(op.manifest.value);
    forall key ensures key !in {"apiVersion", "kind", "metadata"} ==> FieldOf(sent, key) == FieldOf(asked, key) {
      if key != "metadata" {
        FieldsAsAsked(op, "", key);
        TypedKeeps(op, key);
      }
    }
    FieldsAsAsked(op, "", "apiVersion");
    FieldsAsAsked(op, "", "kind");
    TypedKeeps(op, "");
    forall key ensures key !in {"name", "namespace"} ==> FieldOf(Metadata(sent), key) == FieldOf(Metadata(asked), key) {
      OperationMetadata(op, key);
    }
    OperationMetadata(op, "");
    MetadataTextIsAt(sent, "name");
    MetadataTextIsAt(sent, "namespace");
    MetadataTextIsAt(sent, "resourceVersion");
    MetadataTextIsAt(asked, "resourceVersion");
  }

  /** Writing the version changes nothing else that was asked for. */
  lemma {:induction false} VersionedAsAsked(op: Operation, manifest: map<string, Json>, version: string)
    requires ObjectAsAsked(op, Object(manifest)) && NameOf(AtVersion(manifest, version)) != ""
    ensures ObjectAsAsked(op, AtVersion(manifest, version))
    ensures TextAt(AtVersion(manifest, version), ["metadata", "resourceVersion"]) == version
  {
    var sent, after := Object(manifest), AtVersion(manifest, version);
    NamedHoldsMetadata(manifest, "resourceVersion", version);
    forall key ensures key != "metadata" ==> FieldOf(after, key) == FieldOf(sent, key) {
      if key != "metadata" {
        OtherFieldsStay(manifest, "resourceVersion", version, key);
      }
    }
    forall key ensures key != "resourceVersion" ==> FieldOf(Metadata(after), key) == FieldOf(Metadata(sent), key) {
      SetMetadataSets(manifest, "resourceVersion", version, key);
    }
    SetMetadataSets(manifest, "resourceVersion", version, "name");
    SetMetadataSets(manifest, "resourceVersion", version, "namespace");
    MetadataTextIsAt(after, "name");
    MetadataTextIsAt(after, "namespace");
    MetadataTextIsAt(after, "resourceVersion");
    MetadataTextIsAt(sent, "name");
    MetadataTextIsAt(sent, "namespace");
  }

  // ----- patches -----

  lemma {:induction false} HasVersionField(v: Json)
    requires VersionOf(v) != ""
    ensures VersionField(v) == Some(String(VersionOf(v)))
  {
  }

  lemma {:induction false} GuardedMergeAsAsked(before: Json, patch: Json)
    requires patch.Object? && VersionOf(before) != ""
    ensures MergedAsAsked(before, MergePatch(before, GuardMergePatch(patch, VersionOf(before)).value), patch)
  {
    var guarded := GuardMergePatch(patch, VersionOf(before)).value;
    var after := MergePatch(before, guarded);
    HasVersionField(before);
    GuardedMergeKeepsMeaning(before, patch, VersionOf(before));
    GuardedMergeNamesVersion(before, patch, VersionOf(before));
    MetadataTextIsAt(before, "resourceVersion");
    MetadataTextIsAt(after, "resourceVersion");
    forall key ensures key != "metadata" ==> FieldOf(after, key) == FieldOf(MergePatch(before, patch), key) {
      MergedField(before, patch, key);
      MergedField(before, guarded, key);
    }
  }

  lemma {:induction false} GuardedJsonPatchAsAsked(server: Server, before: Json, patch: Json)
    requires GuardJsonPatch(patch, VersionOf(before)).Some? && VersionOf(before) != ""
    ensures ApplyJsonPatch(server.edit, before, GuardJsonPatch(patch, VersionOf(before)).value.items)
            == ApplyJsonPatch(server.edit, before, OperationsOf(patch))
  {
    var version := VersionOf(before);
    HasVersionField(before);
    assert patch.Null? ==> [VersionTest(version)] + [] == [VersionTest(version)];
    GuardedJsonPatchKeepsMeaning(server.edit, before, OperationsOf(patch), version);
  }

  lemma {:induction false} NestOnce(path: seq<string>, value: Json, first: string, rest: seq<string>)
    requires path == [first] + rest
    ensures Nest(path, value) == Object(map[first := Nest(rest, value)])
    ensures rest == [] ==> Nest(path, value) == Object(map[first := value])
  {
    assert path[1..] == rest;
  }

  lemma {:induction false} ScaleSaysReplicas(replicas: int, path: seq<string>)
    requires path == REPLICAS
    ensures ScaleBody(replicas) == Nest(path, Number(replicas as real))
  {
    var value := Number(replicas as real);
    NestOnce(path, value, "spec", ["replicas"]);
    NestOnce(["replicas"], value, "replicas", []);
  }

  lemma {:induction false} RestartSaysTime(stamp: string, path: seq<string>)
    requires path == RESTARTED_AT
    ensures RestartBody(stamp) == Nest(path, String(stamp))
  {
    var value, last := String(stamp), path[4];
    NestOnce(path, value, "spec", path[1..]);
    NestOnce(path[1..], value, "template", path[2..]);
    NestOnce(path[2..], value, "metadata", path[3..]);
    NestOnce(path[3..], value, "annotations", [last]);
    NestOnce([last], value, last, []);
  }

  /** A guarded scale patch changes the replicas to the number asked for, and nothing else. */
  lemma {:induction false} ScaledAsAsked(before: Json, replicas: int)
    requires VersionOf(before) != ""
    ensures var guarded := GuardMergePatch(ScaleBody(replicas), VersionOf(before)).value;
            ScaledTo(before, MergePatch(ScaleView(before), guarded), replicas)
  {
    var view, path := ScaleView(before), REPLICAS;
    HasVersionField(before);
    GuardedMergeKeepsMeaning(view, ScaleBody(replicas), VersionOf(before));
    ScaleSaysReplicas(replicas, path);
    NestSets(view, path, Number(replicas as real));
    forall keys | keys != [] && keys[0] in {"metadata", "spec"} && !(keys <= path) && !(path <= keys)
      ensures ValueAt(view, keys) == ValueAt(before, keys)
    {
      if keys[0] !in Fields(before) {
        assert keys != ["spec"] && |keys| > 1 && view.fields[keys[0]] == Null;
      }
    }
  }

  /** A guarded restart patch of the gateway's own sets the restart time, and nothing else. */
  lemma {:induction false} RestartSetsTime(before: Json, stamp: string)
    requires VersionOf(before) != ""
    ensures NamesNoOtherVersion(RestartBody(stamp), VersionOf(before))
    ensures OnlySets(before, MergePatch(before, RestartBody(stamp)), RESTARTED_AT, String(stamp))
  {
    var path := RESTARTED_AT;
    RestartSaysTime(stamp, path);
    NestSets(before, path, String(stamp));
  }

  // ----- every action -----

  /** Whatever the action, what the server agrees to at the planned object is what the stored operation asks for. */
  lemma {:induction false} JudgedAsAsked(server: Server, op: Operation, before: Option<Json>, verdict: Verdict)
    requires BoundTo(op, before) && (op.action.Create? || op.resourceVersion != "") && RequestFor(op).Some?
    requires verdict == Judge(server, KeyOf(op), before, RequestFor(op).value) && !verdict.Rejected?
    ensures AsAsked(server, op, "", before, verdict)
  {
    match op.action
    case Create => OperationObjectAsAsked(op);
    case Update => UpdateAsAsked(server, op, before.value, verdict);
    case Apply => ApplyAsAsked(server, op, before.value, verdict);
    case Patch => PatchAsAsked(server, op, before.value, verdict);
    case Restart => GuardedMergeAsAsked(before.value, op.patch.value);
    case Scale => ScaledAsAsked(before.value, op.replicas.value);
    case _ =>
  }

  lemma {:induction false} PatchAsAsked(server: Server, op: Operation, before: Json, verdict: Verdict)
    requires op.action.Patch? && BoundTo(op, Some(before)) && op.resourceVersion != "" && RequestFor(op).Some?
    requires verdict == Judge(server, KeyOf(op), Some(before), RequestFor(op).value) && !verdict.Rejected?
    ensures AsAsked(server, op, "", Some(before), verdict)
  {
    if op.patchType == "json" {
      GuardedJsonPatchAsAsked(server, before, op.patch.value);
    } else {
      GuardedMergeAsAsked(before, op.patch.value);
    }
  }

  lemma {:induction false} SentVersion(op: Operation, before: Json)
    requires op.manifest.Some? && op.name != "" && op.resourceVersion == VersionOf(before)
    requires NameOf(AtVersion(OperationObject(op).value, op.resourceVersion)) != ""
    ensures ObjectAsAsked(op, AtVersion(OperationObject(op).value, op.resourceVersion))
    ensures SameVersion(AtVersion(OperationObject(op).value, op.resourceVersion), before)
  {
    SetMetadataKeepsName(OperationObject(op).value, "resourceVersion", op.resourceVersion);
    OperationObjectAsAsked(op);
    VersionedAsAsked(op, OperationObject(op).value, op.resourceVersion);
    MetadataTextIsAt(before, "resourceVersion");
  }

  lemma {:induction false} UpdateAsAsked(server: Server, op: Operation, before: Json, verdict: Verdict)
    requires op.action.Update? && BoundTo(op, Some(before)) && RequestFor(op).Some?
    requires verdict == Judge(server, KeyOf(op), Some(before), RequestFor(op).value) && !verdict.Rejected?
    ensures AsAsked(server, op, "", Some(before), verdict)
  {
    SentVersion(op, before);
  }

  lemma {:induction false} ApplyAsAsked(server: Server, op: Operation, before: Json, verdict: Verdict)
    requires op.action.Apply? && BoundTo(op, Some(before)) && RequestFor(op).Some?
    requires verdict == Judge(server, KeyOf(op), Some(before), RequestFor(op).value) && !verdict.Rejected?
    ensures AsAsked(server, op, "", Some(before), verdict)
  {
    var sent := AtVersion(OperationObject(op).value, op.resourceVersion);
    OperationObjectName(op);
    SetMetadataKeepsName(OperationObject(op).value, "resourceVersion", op.resourceVersion);
    SentVersion(op, before);
    assert server.apply(before, sent, op.force) == Some(verdict.content);
  }

  // ----- from the plan call to the stored operation -----

  /** The operation says what the plan call says; only the target that was read has been added to it. */
  ghost predicate CapturedFrom(asked: Operation, op: Operation, stamp: string) {
    && op == asked.(name := op.name, manifest := op.manifest, patch := op.patch, container := op.container,
                    targetUID := op.targetUID, resourceVersion := op.resourceVersion,
                    expectedAbsent := op.expectedAbsent, generation := op.generation)
    && op.name == TargetName(asked)
    && op.patch == (if asked.action.Restart? && asked.patch.None? then Some(RestartBody(stamp)) else asked.patch)
    && (|| op.manifest == asked.manifest
        || ((asked.action.Apply? || asked.action.Update?) && op.manifest.Some? && (HoldsMetadata(op.manifest.value) ==>
                                    ObjectAsAsked(asked, Object(op.manifest.value)))))
  }

  lemma {:induction false} ManifestCaptured(op: Operation, version: string)
    requires op.manifest.Some? && op.name != ""
    ensures var manifest := AtVersion(OperationObject(op).value, version).fields;
            HoldsMetadata(manifest) ==> ObjectAsAsked(op, Object(manifest))
  {
    var manifest := AtVersion(OperationObject(op).value, version).fields;
    if HoldsMetadata(manifest) {
      OperationObjectIsCanonical(op);
      SetMetadataKeepsName(OperationObject(op).value, "resourceVersion", version);
      OperationObjectAsAsked(op);
      VersionedAsAsked(op, OperationObject(op).value, version);
    }
  }

  /** A captured operation says what the plan call said, with the target name the plan call means. */
  lemma {:induction false} CaptureSaysTheSame(op: Operation, current: Option<Json>, stamp: string, container: string)
    requires op.action.Create? || op.name != ""
    requires Capture(op, current, stamp, container).Some?
    ensures CapturedFrom(op, Capture(op, current, stamp, container).value, stamp)
  {
    var captured := Capture(op, current, stamp, container).value;
    match op.action
    case Create => CreateSaysTheSame(op);
    case Apply =>
      OperationObjectName(op);
      ManifestCaptured(op, captured.resourceVersion);
    case Update => ManifestCaptured(op, captured.resourceVersion);
    case _ =>
  }

  lemma {:induction false} CreateSaysTheSame(op: Operation)
    requires op.manifest.Some?
    ensures op.name == "" ==> NameOf(Object(OperationObject(op).value)) == TargetName(op)
  {
    SetMetadataKeepsName(Typed(op), "namespace", op.namespace);
    MetadataTextIsAt(Object(op.manifest.value), "name");
  }

  lemma {:induction false} ObjectAskedBefore(asked: Operation, op: Operation, stamp: string, sent: Json)
    requires CapturedFrom(asked, op, stamp) && ObjectAsAsked(op, sent)
    ensures ObjectAsAsked(asked, sent)
  {
    var manifest, before := Object(op.manifest.value), Object(asked.manifest.value);
    MetadataTextIsAt(manifest, "name");
    MetadataTextIsAt(before, "name");
  }

  /** What the stored operation asks for is what the plan call asked for. */
  lemma {:induction false} AskedBefore(server: Server, asked: Operation, op: Operation, stamp: string,
                                       before: Option<Json>, verdict: Verdict)
    requires CapturedFrom(asked, op, stamp) && AsAsked(server, op, "", before, verdict)
    requires before.Some? ==> VersionOf(before.value) != ""
    ensures AsAsked(server, asked, stamp, before, verdict)
  {
    match asked.action
    case Create => ObjectAskedBefore(asked, op, stamp, verdict.content);
    case Update => ObjectAskedBefore(asked, op, stamp, verdict.content);
    case Apply =>
      var sent :| ObjectAsAsked(op, sent) && SameVersion(sent, before.value) &&
                  server.apply(before.value, sent, op.force) == Some(verdict.content);
      ObjectAskedBefore(asked, op, stamp, sent);
    case Restart =>
      if asked.patch.None? {
        RestartSetsTime(before.value, stamp);
      }
    case _ =>
  }
}
