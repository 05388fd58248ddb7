/** From a stored operation to an API request, and the server's answer to it (operations.go).

    `Capture` is the read half of previewOperation, `RequestFor` is executeOperation up to the client call,
    and `Judge` is an API server that honours names, preconditions and resourceVersion. */
module Execution {
  import opened JsonValues
  import opened Operations
  import opened Patches

  datatype Key = Key(resource: string, namespace: string, name: string)

  function KeyOf(op: Operation): Key {
    Key(op.resource, if op.namespaced then op.namespace else "", op.name)
  }

  function NameOf(v: Json): string { MetadataText(v, "name") }

  /** The name the plan tool goes by: its own argument, or else the name in the object. */
  function DefaultName(op: Operation): string {
    if op.name == "" && op.manifest.Some? then NameOf(Object(op.manifest.value)) else op.name
  }

  function UidOf(v: Json): string { MetadataText(v, "uid") }

  predicate OperatorManaged(v: Json) {
    match FieldOf(Metadata(v), "labels")
    case Some(labels) => FieldOf(labels, "app.kubernetes.io/managed-by") == Some(String("supek8smcp-operator"))
    case None => false
  }

  /** unstructured.SetName and its siblings: a metadata field that is not an object is silently left alone. */
  function SetMetadata(manifest: map<string, Json>, key: string, value: string): map<string, Json> {
    if "metadata" !in manifest then
      if value == "" then manifest else manifest["metadata" := Object(map[key := String(value)])]
    else
      match manifest["metadata"]
      case Object(metadata) =>
        manifest["metadata" := Object(if value == "" then metadata - {key} else metadata[key := String(value)])]
      case _ => manifest
  }

  /** operationObject; None is its refusal of a missing object. */
  function OperationObject(op: Operation): Option<map<string, Json>> {
    match op.manifest
    case None => None
    case Some(manifest) =>
      var typed := manifest["apiVersion" := String(op.apiVersion)]["kind" := String(op.kind)];
      var named := if op.name != "" then SetMetadata(typed, "name", op.name) else typed;
      Some(if op.namespaced then SetMetadata(named, "namespace", op.namespace) else named)
  }

  function AtVersion(manifest: map<string, Json>, version: string): Json {
    Object(SetMetadata(manifest, "resourceVersion", version))
  }

  datatype Request =
    | CreateRequest(manifest: Json)
    | ApplyRequest(manifest: Json, force: bool)
    | MergeRequest(body: Json, scale: bool)
    | JsonPatchRequest(body: Json)
    | UpdateRequest(manifest: Json)
    | DeleteRequest(uid: string, version: string)

  function ScaleBody(replicas: int): Json {
    Object(map["spec" := Object(map["replicas" := Number(replicas as real)])])
  }

  function RestartBody(stamp: string): Json {
    Object(map["spec" := Object(map["template" := Object(map["metadata" := Object(map["annotations" :=
      Object(map["mcp.supek8smcp.io/restartedAt" := String(stamp)])])])])])
  }

  function GuardedMerge(op: Operation, body: Json, scale: bool): Option<Request> {
    if op.resourceVersion == "" then Some(MergeRequest(body, scale))
    else
      match GuardMergePatch(body, op.resourceVersion)
      case None => None
      case Some(guarded) => Some(MergeRequest(guarded, scale))
  }

  /** The request executeOperation sends; None when it is refused locally or is a remote stream. */
  function RequestFor(op: Operation): Option<Request> {
    match op.action
    case Create => (match OperationObject(op) case None => None
      case Some(manifest) => Some(CreateRequest(Object(manifest))))
    case Apply => (match OperationObject(op) case None => None
      case Some(manifest) => Some(ApplyRequest(AtVersion(manifest, op.resourceVersion), op.force)))
    case Update => (match OperationObject(op) case None => None
      case Some(manifest) => Some(UpdateRequest(AtVersion(manifest, op.resourceVersion))))
    case Scale => (match op.replicas case None => None
      case Some(replicas) => GuardedMerge(op, ScaleBody(replicas), true))
    case Restart => (match op.patch case None => None case Some(body) => GuardedMerge(op, body, false))
    case Patch => (match op.patch case None => None case Some(body) =>
        if op.patchType == "json" then
          if op.resourceVersion == "" then Some(JsonPatchRequest(body))
          else (match GuardJsonPatch(body, op.resourceVersion)
                case None => None case Some(guarded) => Some(JsonPatchRequest(guarded)))
        else if op.patchType == "" || op.patchType == "merge" then GuardedMerge(op, body, false)
        else None)
    case Delete => Some(DeleteRequest(op.targetUID, op.resourceVersion))
    case Exec => None
    case Attach => None
  }

  // ----- the API server -----

  /** What the server adds of its own: JSON Patch edits, the merge of a server-side apply, and how it carries out an
      accepted verdict on an object, where the last argument stands for the new version, times and the like. */
  datatype Server = Server(
    edit: PatchEdit,
    apply: (Json, Json, bool) -> Option<Json>,
    persist: (Option<Json>, Verdict, string) -> Option<Json>)

  datatype Verdict = Rejected | Stored(content: Json) | Removed

  predicate VersionMatches(proposed: Json, current: Json) {
    VersionOf(proposed) == "" || VersionOf(proposed) == VersionOf(current)
  }

  /** A scale patch applies to the Scale view, which carries the metadata of the workload. */
  function ScaleView(current: Json): Json {
    Object(map["metadata" := if "metadata" in Fields(current) then Fields(current)["metadata"] else Null,
               "spec" := if "spec" in Fields(current) then Fields(current)["spec"] else Null])
  }

  function Propose(proposed: Json, current: Json): Verdict {
    if VersionMatches(proposed, current) then Stored(proposed) else Rejected
  }

  function Judge(server: Server, key: Key, current: Option<Json>, request: Request): Verdict {
    match request
    case CreateRequest(manifest) =>
      if current.None? && key.name != "" && NameOf(manifest) == key.name then Stored(manifest) else Rejected
    case ApplyRequest(manifest, force) =>
      if current.None? || !VersionMatches(manifest, current.value) then Rejected
      else (match server.apply(current.value, manifest, force)
            case None => Rejected case Some(merged) => Stored(merged))
    case MergeRequest(body, scale) =>
      if current.None? then Rejected
      else Propose(MergePatch(if scale then ScaleView(current.value) else current.value, body), current.value)
    case JsonPatchRequest(body) =>
      if current.None? || !body.List? then Rejected
      else (match ApplyJsonPatch(server.edit, current.value, body.items)
            case None => Rejected case Some(patched) => Propose(patched, current.value))
    case UpdateRequest(manifest) =>
      if current.None? || key.name == "" || NameOf(manifest) != key.name then Rejected
      else Propose(manifest, current.value)
    case DeleteRequest(uid, version) =>
      if current.Some? && UidOf(current.value) == uid && VersionOf(current.value) == version then Removed else Rejected
  }

  // ----- what a plan captures -----

  /** The operation with its target name filled in, before the live object is read. */
  function Named(op: Operation): Operation {
    match op.action
    case Create =>
      (match OperationObject(op) case None => op
       case Some(manifest) => if op.name == "" then op.(name := NameOf(Object(manifest))) else op)
    case Apply => (match OperationObject(op) case None => op
      case Some(manifest) => op.(name := NameOf(Object(manifest))))
    case _ => op
  }

  function WithTarget(op: Operation, current: Json): Operation {
    op.(targetUID := UidOf(current), resourceVersion := VersionOf(current))
  }

  /** The read half of previewOperation: the operation a plan will store, or None when it is refused.
      The timestamp and the resolved container come from outside. */
  function Capture(op: Operation, current: Option<Json>, stamp: string, container: string): Option<Operation> {
    var named := Named(op);
    if op.action.Create? then
      match OperationObject(op)
      case None => None
      case Some(manifest) =>
        if NameOf(Object(manifest)) == "" || current.Some? then None else Some(named.(expectedAbsent := true))
    else if current.None? || OperatorManaged(current.value) then None
    else
      var found := WithTarget(named, current.value);
      match op.action
      case Apply =>
        (match OperationObject(op) case None => None
         case Some(manifest) => if NameOf(Object(manifest)) == "" then None
           else Some(found.(manifest := Some(AtVersion(manifest, found.resourceVersion).fields))))
      case Update =>
        (match OperationObject(op) case None => None
         case Some(manifest) => Some(found.(manifest := Some(AtVersion(manifest, found.resourceVersion).fields))))
      case Restart => Some(if op.patch.None? then found.(patch := Some(RestartBody(stamp))) else found)
      case Exec => if op.command == [] then None else Some(found.(container := container))
      case Attach => Some(found.(container := container))
      case _ => Some(found)
  }

  /** The captured operation is bound to exactly the object that was read. */
  predicate BoundTo(op: Operation, observed: Option<Json>) {
    if op.action.Create? then op.expectedAbsent && observed.None?
    else
      && observed.Some?
      && op.resourceVersion == VersionOf(observed.value)
      && op.targetUID == UidOf(observed.value)
      && !OperatorManaged(observed.value)
      && (op.action.Apply? ==> op.manifest.Some? && op.name != "" && NameOf(Object(op.manifest.value)) == op.name)
  }

  // ----- lemmas -----

  /** If the object can hold a name at all, it holds the version written to it. */
  lemma {:induction false} AtVersionNamesVersion(manifest: map<string, Json>, version: string)
    requires NameOf(AtVersion(manifest, version)) != ""
    ensures VersionOf(AtVersion(manifest, version)) == version
  {
  }

  lemma {:induction false} SetMetadataKeepsName(manifest: map<string, Json>, key: string, value: string)
    requires key != "name"
    ensures NameOf(Object(SetMetadata(manifest, key, value))) == NameOf(Object(manifest))
  {
  }

  /** A named object comes out of operationObject under the operation's own name. */
  lemma {:induction false} OperationObjectName(op: Operation)
    requires op.manifest.Some? && op.name != ""
    ensures NameOf(Object(OperationObject(op).value)) in {"", op.name}
    ensures NameOf(Object(op.manifest.value)) != "" ==> NameOf(Object(OperationObject(op).value)) == op.name
  {
    var typed := op.manifest.value["apiVersion" := String(op.apiVersion)]["kind" := String(op.kind)];
    var named := SetMetadata(typed, "name", op.name);
    SetMetadataKeepsName(named, "namespace", op.namespace);
  }

  lemma {:induction false} ApplyCaptureBinds(op: Operation, current: Json, stamp: string, container: string)
    requires op.action.Apply? && op.name != ""
    requires Capture(op, Some(current), stamp, container).Some?
    ensures BoundTo(Capture(op, Some(current), stamp, container).value, Some(current))
    ensures KeyOf(Capture(op, Some(current), stamp, container).value) == KeyOf(Named(op))
  {
    OperationObjectName(op);
    SetMetadataKeepsName(OperationObject(op).value, "resourceVersion", VersionOf(current));
  }

  lemma {:induction false} CaptureBinds(op: Operation, current: Option<Json>, stamp: string, container: string)
    requires op.action.Apply? ==> op.name != ""
    requires Capture(op, current, stamp, container).Some?
    ensures BoundTo(Capture(op, current, stamp, container).value, current)
    ensures KeyOf(Capture(op, current, stamp, container).value) == KeyOf(Named(op))
    ensures Capture(op, current, stamp, container).value.action == op.action
  {
    match op.action
    case Apply => ApplyCaptureBinds(op, current.value, stamp, container);
    case _ =>
  }

  /** Writing this field again would change nothing. */
  predicate Holds(manifest: map<string, Json>, key: string, value: string) {
    if "metadata" !in manifest then value == ""
    else
      match manifest["metadata"]
      case Object(metadata) =>
        if value == "" then key !in metadata else FieldOf(Object(metadata), key) == Some(String(value))
      case _ => true
  }

  lemma {:induction false} SetMetadataHolds(manifest: map<string, Json>, key: string, value: string)
    ensures Holds(SetMetadata(manifest, key, value), key, value)
    ensures Holds(manifest, key, value) ==> SetMetadata(manifest, key, value) == manifest
    ensures forall other, kept :: other != key && Holds(manifest, other, kept) ==>
              Holds(SetMetadata(manifest, key, value), other, kept)
    ensures forall field :: field != "metadata" ==>
              FieldOf(Object(SetMetadata(manifest, key, value)), field) == FieldOf(Object(manifest), field)
  {
    if Holds(manifest, key, value) && "metadata" in manifest && manifest["metadata"].Object? {
      var metadata := manifest["metadata"].fields;
      assert (if value == "" then metadata - {key} else metadata[key := String(value)]) == metadata;
    }
  }

  /** The object already says everything operationObject would write. */
  predicate Canonical(op: Operation, manifest: map<string, Json>) {
    && FieldOf(Object(manifest), "apiVersion") == Some(String(op.apiVersion))
    && FieldOf(Object(manifest), "kind") == Some(String(op.kind))
    && (op.name != "" ==> Holds(manifest, "name", op.name))
    && (op.namespaced ==> Holds(manifest, "namespace", op.namespace))
  }

  lemma {:induction false} OperationObjectIsCanonical(op: Operation)
    requires op.manifest.Some?
    ensures Canonical(op, OperationObject(op).value)
  {
    var typed := op.manifest.value["apiVersion" := String(op.apiVersion)]["kind" := String(op.kind)];
    var named := if op.name != "" then SetMetadata(typed, "name", op.name) else typed;
    SetMetadataHolds(typed, "name", op.name);
    SetMetadataHolds(named, "namespace", op.namespace);
  }

  lemma {:induction false} CanonicalIsKept(op: Operation, manifest: map<string, Json>)
    requires Canonical(op, manifest)
    ensures OperationObject(op.(manifest := Some(manifest))) == Some(manifest)
  {
    assert manifest["apiVersion" := String(op.apiVersion)]["kind" := String(op.kind)] == manifest;
    SetMetadataHolds(manifest, "name", op.name);
    SetMetadataHolds(manifest, "namespace", op.namespace);
  }

  /** The object a plan stores for apply and update is a fixed point: the commit rebuilds from it exactly the
      object that was dry-run. */
  lemma {:induction false} StoredObjectIsRebuilt(op: Operation, version: string)
    requires op.manifest.Some?
    ensures var sent := AtVersion(OperationObject(op).value, version);
            AtVersion(OperationObject(op.(manifest := Some(sent.fields))).value, version) == sent
  {
    var plain := OperationObject(op).value;
    var sent := AtVersion(plain, version).fields;
    OperationObjectIsCanonical(op);
    SetMetadataHolds(plain, "resourceVersion", version);
    assert Canonical(op, sent);
    CanonicalIsKept(op, sent);
    SetMetadataHolds(sent, "resourceVersion", version);
  }

  /** The heart of optimistic concurrency: whatever object the server holds when the request arrives, it
      accepts the request of a bound operation only at the version the plan read. */
  lemma {:induction false} AcceptedOnlyAtPlannedVersion(server: Server, op: Operation, observed: Option<Json>,
                                                        current: Option<Json>)
    requires BoundTo(op, observed) && RequestFor(op).Some?
    requires op.action.Create? || op.resourceVersion != ""
    requires !Judge(server, KeyOf(op), current, RequestFor(op).value).Rejected?
    ensures if op.action.Create? then current.None?
            else current.Some? && VersionOf(current.value) == op.resourceVersion
  {
    match op.action
    case Apply =>
      OperationObjectName(op);
      SetMetadataKeepsName(OperationObject(op).value, "resourceVersion", op.resourceVersion);
      AtVersionNamesVersion(OperationObject(op).value, op.resourceVersion);
    case Update =>
      AtVersionNamesVersion(OperationObject(op).value, op.resourceVersion);
    case Patch =>
      if op.patchType == "json" {
        JsonPatchNeedsVersion(server, op.patch.value, op.resourceVersion, current.value);
      } else {
        GuardedMergeNamesVersion(current.value, op.patch.value, op.resourceVersion);
      }
    case Restart =>
      GuardedMergeNamesVersion(current.value, op.patch.value, op.resourceVersion);
    case Scale =>
      GuardedMergeNamesVersion(ScaleView(current.value), ScaleBody(op.replicas.value), op.resourceVersion);
    case _ =>
  }

  lemma {:induction false} JsonPatchNeedsVersion(server: Server, body: Json, version: string, current: Json)
    requires GuardJsonPatch(body, version).Some?
    requires ApplyJsonPatch(server.edit, current, GuardJsonPatch(body, version).value.items).Some?
    ensures VersionOf(current) == version
  {
    var operations := if body.List? then body.items else [];
    assert body.Null? ==> [VersionTest(version)] + operations == [VersionTest(version)];
    GuardedJsonPatchKeepsMeaning(server.edit, current, operations, version);
  }
}
