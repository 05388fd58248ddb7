/** The write operation a plan stores and a commit executes (planstore.go, operations.go). */
module Operations {
  import opened JsonValues

  /** The write actions accepted by k8s.plan. */
  datatype WriteAction = Create | Apply | Patch | Update | Delete | Scale | Restart | Exec | Attach

  datatype Operation = Operation(
    action: WriteAction,
    resource: string,
    apiVersion: string,
    kind: string,
    namespaced: bool,
    namespace: string,
    name: string,
    manifest: Option<map<string, Json>>,
    patch: Option<Json>,
    patchType: string,
    replicas: Option<int>,
    command: seq<string>,
    container: string,
    stdin: string,
    force: bool,
    targetUID: string,
    resourceVersion: string,
    expectedAbsent: bool,
    generation: int)

  predicate IsRemote(op: Operation) {
    op.action.Exec? || op.action.Attach?
  }
}
