# A verified model of the Kubernetes MCP gateway and its operator

The gateway lets an agent read a Kubernetes cluster and, in two steps, write to it: a write is previewed and stored as a
one-time plan, a human repeats the plan's code, and the commit rechecks and executes it. An operator runs one gateway per
`KubernetesMCPServer` and opens its Service only to workloads of the current policy. This project models the parts of both
that carry state, recursion or interleaving, in Dafny, and proves what they keep.

`dafny verify dfyconfig.toml` checks the whole project.

| part | modules |
|---|---|
| plan/commit protocol | `PlanStores`, `Admission`, `Patches`, `Execution`, `PlannedChanges`, `Gateway`, `GatewaySafety`, `GatewayRuns`, `GatewayOrigins`, `GatewayProgress` |
| schema engine | `SchemaRefs`, `KeyOrder`, `SchemaExpansion`, `SchemaMeaning`, `SchemaLookup`, `SchemaLookupLaws` |
| catalog, handles and search | `Capabilities`, `Catalog`, `CatalogSafety`, `CatalogService`, `Search`, `Decimals`, `Cursors` |
| SafeWrite | `SafeWrite`, `SafeWriteFields`, `SafeWriteLaws`, `JsonPointers` |
| operator | `OperatorGate` |
| read output | `ReadShaping`, `Projection`, `LimitedBody` |
| shared | `JsonValues`, `Operations`, `Sequences` |

## How it is modelled

- **Protocols are step systems.** In `Gateway` and `Catalog` each mutex section and each API call is one atomic step of a
  label system; a run is any sequence of enabled labels, so any number of requests, the clock and other writers interleave
  freely. An invariant is proved of every step, and the main theorems are about every run from an initial state.
- **Objects that change in place are classes** (`PlanStore`, `RequestAdmission`, `ExpansionBudget`, `SeenRefs`,
  `CapabilityCodec`, `AuthorizationMemo`, `Cluster`, `Dict`, `ResponseLimitBody`). Each method is tied to a function of the
  old state, and the laws are proved about that function.
- **Specifications are tied down from outside.** A function that specifies a step is itself described by a law that does not
  name it: by field names and literal values, by what every path or route shows, by an index map, or by a run in which the
  step is taken and its effect seen.
- **What comes from outside is a parameter.** Digests, base64, case folding, credential patterns, access reviews, chunk
  sizes, API failures, discovery results and clock readings are function values or labels, quantified over in every theorem.

Assumptions, each visible in a `requires` or in an `Enabled` guard: plan identifiers are fresh, also among the
identifiers callers have presented so far, the clock does not run backwards, the API server judges a write against the
object it holds at that instant, resource versions are never reused, and where a theorem speaks of two texts with one
digest, the digest is injective or the collision is named. Between reconciles other actors may do anything to objects
the operator does not own, delete anything and change the server, but `OutsideMayDo` rules out three things: writing a
Service that the operator owns, creating the binding, and removing the server or its finalizer while the binding stands.
The API server's handling of patch operations other than `test`, its server-side apply and what it persists of an accepted
verdict are arbitrary functions; `test` and the merge patch are defined from their RFCs.

Some properties hold only up to a condition, which the project states exactly:

- the merge-patch guard keeps a patch's meaning if and only if the patch does not itself replace metadata or name another
  version (`GuardedMergeKeepsMeaning`);
- `PlanStore.Create` keeps its totals exact if and only if the random identifier is not that of a live plan;
- following search cursors lists everything if and only if no review of a matching capability faults;
- the recheck of a consumed plan passes only on the observed object if and only if that object had a UID
  (`RecheckExactly`);
- SafeWrite accepts no change at all if and only if every list entry that is compared with an earlier entry of its name
  claims nothing the other does not (`UnchangedIsAcceptedExactly`); `DuplicateNamesRefuseNoChange` is a workload it refuses;
- two accepted SafeWrite transitions compose if and only if no list entry outside a pinned field makes a claim, or some
  pinned field cannot even stay as it is, so that there is no first transition (`AcceptedTransitionsCompose`,
  `ComposesExactly`); `RemovingAndReaddingEscapes` is a workload where they do not;
- a failing reconcile whose shutdown calls work disables the Service if and only if it is not somebody else's, and likewise
  stops the Deployment unless it is somebody else's and running (`ShutsDown` in `Fail`).

## Model

| member | source | states |
|---|---|---|
| PlanStores.HashBindsCode | internal/server/planstore.go:172-174 | a stored confirmation hash matches exactly the code it was made from |
| PlanStores.CreateKeepsBudget | internal/server/planstore.go:86-106 | creating a plan under a new identifier keeps plan count and bytes within capacity, failures below five, and lets a subject exceed its byte budget only with a single plan |
| PlanStores.ConsumeKeepsBudget | internal/server/planstore.go:109-142 | every outcome of consuming, including counted failures and lock-out, keeps the same bounds |
| PlanStores.FewerPlansStayWithinBudget | internal/server/planstore.go:176-193 | removing any plans, as pruning does, keeps the bounds |
| PlanStores.FitsExactly | internal/server/planstore.go:89-98 | a plan is refused exactly when storing it would break the bounds |
| PlanStores.ConsumeIsFair | internal/server/planstore.go:109-142 | a plan leaves the store only by its owner's right six-digit code, the fifth wrong one, or once expired; another subject's call and any malformed call change nothing, no call changes another plan, and each refusal has its own reason |
| PlanStores.RemovalAccounts | internal/server/planstore.go:184-193 | subtracting a removed plan leaves exact totals and no zero entry for its subject |
| PlanStores.AdditionAccounts | internal/server/planstore.go:99-106 | adding a plan's size leaves exact totals for the store and for every subject |
| PlanStores.CollisionBreaksAccounts | internal/server/planstore.go:99-106 | reusing the identifier of a live plan makes the running totals wrong |
| PlanStores.PlanStore.constructor | internal/server/planstore.go:64-69 | an empty store has exact totals |
| PlanStores.PlanStore.Create | internal/server/planstore.go:71-107 | decides as the specification that recomputes all totals from the plans; a created plan carries the operation, subject and code it was given for two minutes, every other unexpired plan stays as it was, and the invariant survives exactly when the identifier is new or the plan is refused |
| PlanStores.PlanStore.HasRoom | internal/server/planstore.go:89-98 | the three capacity checks on running totals agree with sums over the stored plans |
| PlanStores.PlanStore.Consume | internal/server/planstore.go:109-142 | answers and changes the store exactly as the specification and as the owner is promised, and keeps the totals exact |
| PlanStores.PlanStore.Prune | internal/server/planstore.go:176-182 | keeps exactly the unexpired plans with exact totals |
| PlanStores.PlanStore.Remove | internal/server/planstore.go:184-193 | removes one plan and its bytes |
| Admission.PerIdentity | internal/server/admission.go:14-19 | the identity limit is at least one and otherwise half the concurrency, rounded up |
| Admission.RequestAdmission.AcquireIdentity | internal/server/admission.go:21-29 | admits exactly below the limit and counts one more |
| Admission.RequestAdmission.ReleaseIdentity | internal/server/admission.go:31-38 | counts one less and leaves no zero entry |
| Admission.RequestAdmission.AcquireStream | internal/server/admission.go:40-53 | takes a slot exactly when one is free, and tells disabled from full |
| Admission.RequestAdmission.ReleaseStream | internal/server/admission.go:40-53 | gives the slot back |
| Patches.GuardedMergeKeepsMeaning | internal/server/operations.go:452-518 | at the planned version the guarded merge patch gives the original's result exactly when the original does not replace metadata or name another version (section 2 of RFC 7396) |
| Patches.GuardedMergeNamesVersion | internal/server/operations.go:495-518 | on any target, the guarded merge patch demands the planned version |
| Patches.GuardedJsonPatchKeepsMeaning | internal/server/operations.go:495-518 | for any handling of the other operations, the guarded JSON Patch gives the original's result at the planned version and fails whole at any other (sections 4.6 and 5 of RFC 6902) |
| Patches.VersionTestMeans | internal/server/operations.go:495-518 | the guard's test operation, decoded and resolved as sections 3 and 4 of RFC 6901 and 4.6 of RFC 6902 say, passes without effect exactly at the planned version |
| Patches.VersionFieldIsAtPath | internal/server/operations.go:495-518 | the tested field is the one under metadata and resourceVersion |
| Patches.MergeMeaning | internal/server/operations.go:452-493 | a merge patch leaves every path it does not mention, puts its values where it has them and removes what it sets to null (section 2 of RFC 7396) |
| Patches.NestSets | internal/server/operations.go:452-473 | a patch that names one path sets that value in any object and changes no path that parts from it |
| Execution.CaptureBinds | internal/server/operations.go:166-332 | whatever previewOperation accepts is bound to exactly the object it read: version, UID, absence for a create, and not operator-managed |
| Execution.StoredObjectIsRebuilt | internal/server/operations.go:429-450 | rebuilding the object of a stored apply or update gives exactly the object that was dry-run |
| Execution.AcceptedOnlyAtPlannedVersion | internal/server/operations.go:341-402 | whatever object the server holds, it accepts a bound operation only at the planned version, and a create only if the name is absent |
| PlannedChanges.OperationObjectAsAsked | internal/server/operations.go:429-450 | the object sent for a create, apply or update is the plan's own in every field, with the type, name and namespace the plan names |
| PlannedChanges.ScaledAsAsked | internal/server/operations.go:452-493 | a guarded scale request sets the replicas to the number asked for and changes nothing else |
| PlannedChanges.RestartSetsTime | internal/server/operations.go:463-471 | a restart without a patch sets the one restart annotation and changes nothing else |
| PlannedChanges.JudgedAsAsked | internal/server/operations.go:341-402 | for every action, what the server agrees to at the planned object is what the stored operation asks for, by field, path and value |
| PlannedChanges.CaptureSaysTheSame | internal/server/operations.go:166-332 | previewing adds the target to an operation and changes nothing else the plan call said |
| PlannedChanges.AskedBefore | internal/server/operations.go:166-402 | what the stored operation asks for is what the plan call asked for |
| GatewaySafety.StepKeepsInv | internal/server/operations.go:51-164 | every step of every request, of the clock and of other writers keeps the invariant on slots, plans, history and requests |
| GatewaySafety.AcceptedOnlyOnObserved | internal/server/operations.go:341-427 | in a reachable state an accepted execution finds the very object its plan observed |
| GatewayRuns.PersistedWritesAreAsPlanned | internal/server/operations.go:113-164 | in every interleaving, each persisted write replaced exactly the object its plan observed, at the planned version and UID and not under the operator, on exactly the server verdict that was previewed, which is what the planned operation asks for; it leaves what the server makes of that verdict on that object, and no plan writes twice |
| GatewayOrigins.WritesDoWhatWasAsked | internal/server/operations.go:51-164 | every persisted write carries out some plan call of its own subject: under the key that call names, the verdict is what that call asked for, by field, path and value |
| GatewayOrigins.StreamsRunWhatWasAsked | internal/server/operations.go:51-164 | every running exec or attach runs the command and input some plan call of its own subject asked for, in the pod that call named |
| GatewayProgress.CaptureExactly | internal/server/operations.go:166-316 | a preview refuses, before the server is asked, exactly incomplete calls and targets that are absent, present for a create, or under the operator |
| GatewayProgress.RequestExactly | internal/server/operations.go:452-518 | a request is sent exactly if the operation carries a body of the form its action needs |
| GatewayProgress.RecheckExactly | internal/server/operations.go:404-427 | the recheck passes exactly if the policy generation is the plan's and the cluster still holds the observed object, or the observed object had no UID |
| GatewayProgress.RevalidationIsSafe | internal/server/operations.go:143-148 | in SafeWrite mode nothing is executed before a second preview, and one that lets the commit go on has asked the server again and accepts its answer as a transition from the object there now |
| GatewayProgress.UndisturbedPlanIsStored | internal/server/operations.go:51-105 | a complete plan call on an open target, to which server and SafeWrite agree and for which there is room, is stored as it was asked for |
| GatewayProgress.UndisturbedCommitWrites | internal/server/operations.go:113-164 | whoever commits a stored plan in time with its code, while its target is unchanged, gets it carried out: the steps are enabled in turn, in SafeWrite mode too, and the cluster holds what the server makes of the previewed verdict |
| GatewayProgress.UndisturbedStreamRuns | internal/server/operations.go:113-164 | the same commit of an exec or attach runs in a stream slot whenever one of the N - 1 is free |
| GatewayProgress.AdmittedBelowHalf | internal/server/auth.go:310-359 | a plan call of an identity that holds less than half of the slots is admitted, under the name it means |
| GatewayProgress.ReturningReleasesSlots | internal/server/auth.go:310-359 | a returning request gives back exactly the stream, identity and request slots it held |
| GatewayRuns.SafeWritesAreAcceptedTransitions | internal/server/operations.go:318-322 | in SafeWrite mode, in every interleaving, the dry-run answer of each persisted apply, patch, restart and update is a transition the walker accepts from the object the write found, and so is the object it left if the server stamps only metadata and the old metadata makes no claim |
| GatewayRuns.MetadataDoesNotMatter | internal/server/safe_write.go:328-342 | the walker's acceptance carries over to any object that differs in metadata alone, if the old metadata makes no claim |
| GatewayRuns.NothingElseWrites | internal/server/operations.go:113-164 | apart from other writers only an accepted execution changes the cluster, in one object, and the object before and after it is recorded |
| GatewayRuns.PlansAreOneTime | internal/server/planstore.go:109-142 | over any run a plan is consumed at most once, by its creator, in time, with its own code, yielding its own operation; at most five codes are compared against it |
| GatewayRuns.PlansNeverReturn | internal/server/planstore.go:71-142 | over any run a plan that left the store never returns, and one still there is unchanged |
| GatewayRuns.PlansStayUntilDone | internal/server/planstore.go:71-142 | over any run, whatever others do, a plan stays until it is consumed, expires or has had five codes compared, and until then its own subject can consume it with its code |
| GatewayRuns.SlotsAreRespected | internal/server/auth.go:310-359 | over any run streams and identity counts equal the requests that hold them and stay within N-1 and half of N rounded up, and a streaming read and a consumed exec or attach always hold a stream slot |
| GatewayRuns.RefusedStreamKeepsPlan | internal/server/operations.go:113-126 | a commit refused for lack of a stream slot changes no plan, and the plan stays consumable until it expires |
| GatewayRuns.StoredPlanIsConsumable | internal/server/planstore.go:109-142 | a stored plan is consumed by its own subject and code at any time up to its expiry |
| KeyOrder.SortedKeysEnumerate | internal/server/schema.go:112-119 | the sorted keys list each key of the map once, in order |
| KeyOrder.LessEqMeans | internal/server/schema.go:112-119 | the order is that of Go strings: a prefix first, and otherwise the first difference decides |
| SchemaExpansion.ExpandMeaning | internal/server/schema.go:121-184 | for every document, budget and seen set, what remains is the budget less the node count; budget left over means the budget-free expansion; any other result is that expansion with every cut marked in its place: a truncation value, the last entry of a shortened list, or the mark in an object that lacks fields |
| SchemaExpansion.DescribeIsBoundedAndHonest | internal/server/schema.go:96-184 | one describe visits at most 10,000 nodes, returns smaller schemas whole, and otherwise returns the budget-free expansion with every cut marked where it was made |
| SchemaExpansion.CutIsMarked | internal/server/schema.go:121-184 | a result that differs from the whole expansion carries a marker a reader can find |
| SchemaExpansion.ItemsBeforeTheCut | internal/server/schema.go:125-135 | an entry that the budget reaches past is whole, whatever is cut after it |
| SchemaExpansion.FieldsBeforeTheCut | internal/server/schema.go:154-184 | a field that the budget reaches past, in sorted order, is whole |
| SchemaMeaning.FreeIsResolved | internal/server/schema.go:121-184 | no schema in the budget-free expansion still points to a known component, except to say that it recurs |
| SchemaMeaning.FreeShowsTheDocument | internal/server/schema.go:121-184 | wherever steps through properties, items, additionalProperties, the combinators and references lead in the document, the same steps lead in the budget-free expansion to that schema: every key, every field that holds no schema, a truncation below the depth and a mark where it recurs |
| SchemaMeaning.DescribeShowsTheDocument | internal/server/schema.go:49-50 | a describe within the budget shows all of that |
| SchemaMeaning.EveryNodeIsCharged | internal/server/schema.go:121-184 | every schema within the depth costs a node of the budget, and so do every field copied for it and every list entry |
| SchemaExpansion.ExpansionBudget.Take | internal/server/schema.go:100-106 | takes one node while any remain |
| SchemaExpansion.ExpandSchema | internal/server/schema.go:121-184 | the recursion over the shared budget terminates on cyclic documents and computes the specified expansion and remaining budget |
| SchemaExpansion.ExpandTakenObject | internal/server/schema.go:136-153 | references are followed once per path and cut when seen |
| SchemaExpansion.ExpandArray | internal/server/schema.go:125-135 | the array loop threads the budget from entry to entry |
| SchemaExpansion.ExpandObject | internal/server/schema.go:154-184 | the field loop threads the budget in key order |
| SchemaExpansion.ExpandPropertyMap | internal/server/schema.go:162-172 | the property loop threads the budget in key order |
| SchemaLookup.LookupIsReachability | internal/server/schema.go:53-94 | lookup succeeds exactly when some schema on any walk through references and combinators, cyclic or not, declares the property |
| SchemaLookup.CutCycle | internal/server/schema.go:53-94 | a walk that returns to a reference can be shortened, so cutting cycles loses no result |
| SchemaLookup.LookupIsGenuine | internal/server/schema.go:53-94 | what lookup returns is a declared property, or one combinator over several such results |
| SchemaLookupLaws.FoundExactly | internal/server/schema.go:53-94 | cutting cycles is invisible: a property is found exactly if the schema has it under properties, its component has it, or a branch of allOf, oneOf or anyOf has it, each looked up afresh |
| SchemaLookupLaws.LookupReturns | internal/server/schema.go:53-94 | an own property is returned as it stands; otherwise, without one behind the reference, the results of all the branches of the first combinator that has any, in order |
| SchemaLookupLaws.ReferenceComesFirst | internal/server/schema.go:60-69 | the component a schema refers to is consulted before its branches |
| SchemaLookup.SchemaProperty | internal/server/schema.go:53-94 | the search over the shared seen set terminates, computes the lookup, and leaves the set as it found it |
| SchemaLookup.SearchBranches | internal/server/schema.go:73-92 | collects the matches of every object branch, in order |
| Capabilities.EncodeKeepsTable | internal/server/capability.go:71-90 | encoding issues a handle of the payload's own digest, binds it, and rebinds none |
| Capabilities.ProbeIsShortest | internal/server/capability.go:71-90 | the handle issued is the shortest of 12, 16 up to 32 bytes of the payload's digest that names no other payload, and there is none exactly if each length does |
| Capabilities.IssuedHandleDecodes | internal/server/capability.go:71-105 | a handle decodes to what it was issued for, and asking again for the same payload gives it again |
| Capabilities.DecodesExactlyStored | internal/server/capability.go:92-105 | exactly the stored handles decode |
| Capabilities.PanicMeansSharedDigest | internal/server/capability.go:71-90 | the panic is reached only if another payload in the table has the same full digest |
| Capabilities.RetainKeepsTable | internal/server/capability.go:107-117 | keeps exactly the handles that the given capabilities name, and rebinds none |
| Capabilities.CapabilityCodec.EncodeCapability | internal/server/capability.go:71-90 | the probing loop finds the shortest free length and stores the handle |
| Capabilities.CapabilityCodec.FreeId | internal/server/capability.go:71-90 | tries lengths of 12, 16 up to 32 bytes in turn |
| Capabilities.CapabilityCodec.Decode | internal/server/capability.go:92-105 | decodes exactly the handles in the table |
| Capabilities.CapabilityCodec.RetainCapabilities | internal/server/capability.go:107-117 | keeps exactly the handles the given capabilities name |
| CatalogSafety.StepKeepsInv | internal/server/catalog.go:49-238 | every step of every caller keeps the catalog invariant |
| CatalogSafety.OneRefreshAndNoLostWaiter | internal/server/catalog.go:49-119 | in every interleaving at most one refresh runs, and a waiter's channel is either closed or about to be closed by the running refresh |
| CatalogSafety.SnapshotsAreCompleteAndBackoffHolds | internal/server/catalog.go:49-238 | over any run the stored snapshot comes from a complete discovery and no discovery starts within five seconds of a failure |
| CatalogSafety.FailureKeepsSnapshot | internal/server/catalog.go:99-119 | however a run continues, the caller of a failed or partial discovery returns the snapshot stored before it, and until then the snapshot is unchanged |
| CatalogService.SnapshotIsServedWhileFresh | internal/server/catalog.go:49-60 | for five minutes after a complete discovery is published, however the run goes on, everyone who looks is given what was published |
| CatalogService.BackedOffCallerIsGiven | internal/server/catalog.go:61-72 | within five seconds of a failure a caller is given the old snapshot, or else what the failed discovery found, or else its error |
| CatalogService.RefreshResumes | internal/server/catalog.go:49-83 | once the snapshot is five minutes old and every failure five seconds, and nobody is refreshing, the next caller refreshes |
| CatalogService.RefresherReturnsWhatItFound | internal/server/catalog.go:214-238 | whoever refreshes returns what it found; a complete result becomes the snapshot, a partial one is set aside |
| CatalogService.FailedDiscoveryIsBuilt | internal/server/catalog.go:105-119 | without a snapshot a failed discovery goes on with exactly what it found, and is an error if that is nothing |
| CatalogSafety.HandlesKeepDecoding | internal/server/catalog.go:219-238 | over any run every handle of the current snapshot, the one before it and the saved partial result decodes to what it was issued for |
| CatalogSafety.StepNeverRebinds | internal/server/capability.go:71-117 | no step rebinds a handle that stays in the table |
| CatalogSafety.RunPanicsOnlyOnSharedDigest | internal/server/capability.go:71-90 | in a reachable state encoding panics only if two payloads share the full digest |
| Search.ScanMeaning | internal/server/catalog.go:319-343 | a page holds exactly the authorised capabilities of the stretch it examined, stops only at the end, at its limit or after 100, and a fault is a fault of the last one examined |
| Search.PageAdvances | internal/server/catalog.go:319-348 | a page that offers a cursor is full or has examined 100, and has advanced if and only if its limit is positive |
| Search.EffectiveLimitIsPositive | internal/server/reads.go:48-51 | a limit within the maximum is granted, any other becomes twenty or the maximum if that is less; it is positive exactly when the maximum is |
| Search.CollectMeaning | internal/server/catalog.go:268-352 | from any index, following cursors collects the authorised rest, or fails if a review in it faults |
| Search.FollowingCursorsListsEverything | internal/server/catalog.go:268-352 | following cursors succeeds if and only if every review that decides on a matching capability is answered, and then yields exactly the capabilities of the catalog that match and are visible, in catalog order by an increasing index map and as often as they occur |
| Search.VerdictMeaning | internal/server/policy.go:152-177 | a capability is visible exactly if the policy permits and a review allows it on the target and, for anything but get, list and watch, the same holds of getting the object; it is undecided exactly if a review that is needed faults |
| Search.AuthorizationMemo.Authorize | internal/server/policy.go:93-107 | answers as the review would, and asks it only the first time |
| Search.AuthorizationMemo.CheckAndAuthorizeOperation | internal/server/policy.go:152-170 | the memoised check gives the unmemoised verdict and sends exactly the reviews it needs |
| Search.FilterItems | internal/server/catalog.go:292-313 | keeps exactly the matching capabilities, in order and as often as they occur |
| Search.ScanPage | internal/server/catalog.go:319-343 | the page loop over the memo computes the specified page and reviews exactly what it examined |
| Search.SearchCatalog | internal/server/catalog.go:268-352 | the memoised page is the unmemoised page, with one review per distinct key |
| Decimals.ItoaReadsBack | internal/server/catalog.go:361-378 | a decimal text reads back as its number |
| Cursors.CursorRoundTrip | internal/server/catalog.go:361-378 | a cursor is never empty and decodes to its index exactly when a machine integer holds it |
| Cursors.CursorsAreNumbers | internal/server/catalog.go:361-378 | only a decimal number that is neither negative nor beyond a machine integer is a cursor |
| Cursors.ListingCollects | internal/server/catalog.go:268-378 | a listing from any cursor text ends and gathers what the index-based listing collects |
| Cursors.FollowingTextCursors | internal/server/catalog.go:268-378 | a caller who starts with the empty cursor and follows the cursor texts it gets always reaches the end and gathers exactly the matching visible capabilities in catalog order, or is refused exactly if a review among them is not answered |
| OperatorGate.Cluster.ReconcileService | internal/operator/reconciler.go:224-260 | writes the Service exactly if it is owned or absent and the calls work, and whatever its calls do every state stays sound |
| OperatorGate.Cluster.ReconcileServiceGate | internal/operator/reconciler.go:203-222 | fails only on a fault or a foreign Service; on success the Service carries the new policy revision and keeps its target only if it already had that policy |
| OperatorGate.Cluster.ReconcileServiceAccount | internal/operator/reconciler.go:183-201 | creates or keeps an owned account and leaves a foreign one alone |
| OperatorGate.Cluster.RejectDelegatedAuthentication | internal/operator/reconciler.go:304-309 | a rejection whose call succeeds leaves no binding |
| OperatorGate.ReviewerRoleGrantsOnlyReviews | internal/operator/reconciler.go:311-331 | the accepted role has the single rule for token reviews, and so grants creating them and nothing else |
| OperatorGate.Cluster.ReconcileDelegatedAuthentication | internal/operator/reconciler.go:262-320 | succeeds only with an owned account, a role that grants creating token reviews and nothing else, and no binding to another role; every refusal, whatever faulted before, ends with the removing call and leaves no binding exactly as reported, which is whenever that call works |
| OperatorGate.Cluster.ReconcileDeployment | internal/operator/reconciler.go:333-424 | runs one replica of the given revision, and leaves a foreign Deployment alone |
| OperatorGate.Cluster.ReconcileResources | internal/operator/reconciler.go:127-181 | on success the Service selects exactly the revision the Deployment runs, computed from policy, image, configuration and certificate; at every write on the way it is as it was or selects what the Deployment already runs, and stays gated for the policy |
| OperatorGate.Cluster.DisableServer | internal/operator/reconciler.go:500-524 | when its calls work, the selector is disabled exactly if the Service is not foreign, and nothing runs exactly if the Deployment is not foreign or had no replicas; the second half runs even if the first fails |
| OperatorGate.Cluster.Fail | internal/operator/reconciler.go:486-498 | whoever owns the rest, a failing exit all of whose calls but the closing status update work disables an owned Service and leaves an owned Deployment at zero |
| OperatorGate.Cluster.ReconcileGated | internal/operator/reconciler.go:71-125 | after the gate, every API write leaves the Service annotated with this policy, and a failure shuts down by its last three to five calls, whatever faulted before them |
| OperatorGate.Cluster.Finalize | internal/operator/reconciler.go:474-484 | the finalizer is removed only after the binding is gone |
| OperatorGate.Cluster.Reconcile | internal/operator/reconciler.go:48-125 | whatever the calls do, every state is sound, and until the Service is gated for the new policy nothing is set up and workloads only stop; success serves the server's own policy; a failure, whatever faulted before it, disables an owned Service and stops an owned Deployment when its last calls, the shutdown, work; a refused authentication leaves no binding when the call that removes it works; a missing server is left alone, one without finalizer gets it and nothing else, a deleted one loses it after the binding; without faults what it found decides the exit |
| OperatorGate.Cluster.Operate | internal/operator/reconciler.go:48-125 | over every run of reconciles, failures and outside interference the selector is disabled or computed from the policy in the Service's own annotation, and the binding exists only under the finalizer |
| OperatorGate.NoStaleWorkload | internal/operator/reconciler.go:157-165 | in no state of any run does the Service select a workload of another policy than its annotation names |
| OperatorGate.WorkloadsHaveDistinctRevisions | internal/operator/reconciler.go:157-165 | any change to policy, image, configuration or certificate is a new workload revision |
| OperatorGate.GenerationsHaveDistinctRevisions | internal/operator/reconciler.go:567-569 | two server generations share a policy revision only if they are the same |
| SafeWrite.WeakenedLosesAClaim | internal/server/safe_write.go:358-399 | the validator refuses a field exactly when a claim the field made about the workload is lost |
| SafeWrite.StringSet | internal/server/safe_write.go:454-469 | collects exactly the texts of a list |
| SafeWrite.AcceptsMeansKept | internal/server/safe_write.go:328-356 | a transition is accepted exactly when on every route through keys and matched list entries no field of a spec loses a claim |
| SafeWriteFields.SafeByName | internal/server/safe_write.go:358-399 | a field loses no claim exactly when its new value is safe by its name, said for each field the validator knows in field names and values; any other field is never refused |
| SafeWriteFields.AcceptsMeansSafe | internal/server/safe_write.go:328-399 | a transition is accepted exactly when, on every route, every field of a spec stays safe by its name |
| SafeWriteFields.SpecFieldsStaySafe | internal/server/safe_write.go:328-399 | in an accepted transition every field under a top-level spec stays safe: a false allowPrivilegeEscalation stays false, a true runAsNonRoot true, dropped capabilities dropped, and so on for each name |
| SafeWriteFields.SpecRoutesStaySafe | internal/server/safe_write.go:328-399 | the same below every field of the spec, through list entries such as containers, each against its matched counterpart |
| SafeWriteFields.EntryIsMatched | internal/server/safe_write.go:401-416 | a named entry is compared with the first of its name in the new list, and any other with the one at its index |
| SafeWriteFields.InSpecExactly | internal/server/safe_write.go:333-335 | an object reached by keys without dots counts as in a spec exactly if its first key is spec or it lies below a later key spec |
| SafeWrite.AcceptedTransitionKeepsControls | internal/server/safe_write.go:318-356 | an accepted transition keeps every control under spec reached through object keys, and for trees whose list entries make no claims that is exactly what it checks |
| SafeWrite.SpecKeysAreInSpec | internal/server/safe_write.go:328-342 | every field below a top-level spec passes the walker's own test for lying in a spec |
| SafeWriteLaws.UnchangedIsAccepted | internal/server/safe_write.go:328-416 | in particular, no change is accepted when named list entries are distinct |
| SafeWriteLaws.UnchangedIsAcceptedExactly | internal/server/safe_write.go:328-416 | no change is accepted exactly when every entry compared with another of its name claims nothing the other does not |
| SafeWriteLaws.DuplicateNamesRefuseNoChange | internal/server/safe_write.go:401-416 | a workload with two entries of one name where even no change is refused |
| SafeWriteLaws.AcceptedTransitionsCompose | internal/server/safe_write.go:328-399 | two accepted transitions in a row are one accepted transition when no list entry of the first tree outside a pinned field makes a claim |
| SafeWriteLaws.GuardedListEscapes | internal/server/safe_write.go:343-354 | whatever the list and the claim in it, from any accepted state in which the list is empty an accepted transition loses the claim as one transition may not |
| SafeWriteLaws.AcceptedMeansPinnedCovered | internal/server/safe_write.go:328-399 | a tree from which any transition is accepted could keep every pinned field as it is |
| SafeWriteLaws.HollowIsAccepted | internal/server/safe_write.go:328-416 | a tree whose pinned fields may stay may have every other list of objects or lists emptied at once |
| SafeWriteLaws.ComposesExactly | internal/server/safe_write.go:328-416 | a tree composes if and only if no list entry outside a pinned field makes a claim or some pinned field cannot stay as it is; trees with shadowed entries included |
| SafeWriteLaws.RemovingAndReaddingEscapes | internal/server/safe_write.go:344-354 | a container beside another is removed and added back without its control in two accepted transitions that one transition would refuse |
| SafeWrite.FindMatchingEntry | internal/server/safe_write.go:401-416 | finds the first entry of the same name, or else the one at the index |
| SafeWrite.WalkSecurityTransition | internal/server/safe_write.go:328-356 | the walk with its early exits decides the relation, in whatever order keys are visited |
| SafeWrite.WalkFields | internal/server/safe_write.go:330-342 | visits every field and stops at the first refusal |
| SafeWrite.WalkEntries | internal/server/safe_write.go:343-354 | compares every entry with its match and skips the unmatched |
| JsonPointers.DecodePointer | internal/server/safe_write.go:69-95 | decoding the escaped form of any non-empty list of segments returns it (sections 3 and 4 of RFC 6901) |
| JsonPointers.PointerDecode | internal/server/safe_write.go:69-95 | re-escaping what an accepted path decodes to returns that path |
| JsonPointers.DecodeIsABijection | internal/server/safe_write.go:69-95 | the accepted paths are exactly the pointers of non-empty segment lists, and no two decode alike |
| JsonPointers.EscapeMeans | internal/server/safe_write.go:75-92 | a tilde is written ~0, a slash ~1, and every other character as itself (section 3 of RFC 6901) |
| JsonPointers.DecodeSegment | internal/server/safe_write.go:75-92 | the byte loop decodes both escapes and refuses any other |
| JsonPointers.DecodeJsonPointer | internal/server/safe_write.go:69-95 | the decoder computes the specified decoding |
| ReadShaping.CleanCommutesWithRedact | internal/server/read_output.go:101-121 | cleaning and redacting commute on every tree, for every option set and every notion of sensitive |
| ReadShaping.CleanIsIdempotent | internal/server/read_output.go:101-121 | cleaning twice is cleaning once |
| ReadShaping.RedactIsIdempotent | internal/server/redaction.go:33-71 | redacting twice is redacting once |
| ReadShaping.CleanRemovesExactlyOmitted | internal/server/read_output.go:101-121 | exactly the routes through an omitted metadata field disappear, and every other leads to the same scalar, a list as long or an object with the same remaining keys |
| ReadShaping.RedactHidesExactlySensitive | internal/server/redaction.go:33-71 | under the annotations of any metadata, inside lists too, exactly the sensitive entries are replaced, and the others are as they were |
| ReadShaping.RedactKeepsTheRest | internal/server/redaction.go:33-54 | every route outside annotations leads to the same scalar, a list as long or an object with the same keys |
| ReadShaping.CleanKubernetesValue | internal/server/read_output.go:101-121 | the loops that fill fresh maps compute the cleaning |
| ReadShaping.RedactAnnotationMap | internal/server/redaction.go:56-71 | the annotation loop computes the redaction of one map |
| ReadShaping.RedactSensitiveAnnotations | internal/server/redaction.go:33-54 | the loops that fill fresh maps compute the redaction |
| ReadShaping.RedactedSecretRevealsNothing | internal/server/redaction.go:107-136 | a redacted Secret does not depend on any value of its data or annotations |
| ReadShaping.RedactedSecretKeepsTheRest | internal/server/redaction.go:107-136 | the keys stay, every value of data, stringData, binaryData and annotations is replaced, and everything else is as it was |
| ReadShaping.RedactedListKeepsTheRest | internal/server/redaction.go:86-105 | a redacted list has the same fields and as many entries, each redacted if it is an object |
| ReadShaping.RedactedListRevealsNothing | internal/server/redaction.go:86-105 | neither does a redacted list of Secrets |
| Projection.ValueAtPath | internal/server/read_output.go:368-381 | follows the keys through the maps as they are |
| Projection.SetValueAtPath | internal/server/read_output.go:383-394 | the path then leads to the input's own value, earlier exact paths stay exact, and writes into shared maps change nothing |
| Projection.ProjectObject | internal/server/read_output.go:353-366 | the input is unchanged although submaps are shared, and it reports whether any path was found |
| Projection.ProjectionIsFaithful | internal/server/read_output.go:353-394 | every requested path that exists reads back the same value, and the output holds nothing the input lacks and nothing that was not asked for |
| LimitedBody.ResponseLimitBody.constructor | internal/server/auth.go:235-239 | nothing is delivered yet and nothing is exceeded |
| LimitedBody.ResponseLimitBody.Read | internal/server/auth.go:252-280 | for every chunking each call asks the source once for as much as the buffer and the limit allow; the delivered bytes are the source's first bytes up to the limit, at most one byte more is pulled, and too large is reported exactly then; otherwise the source's own error is passed on |
| LimitedBody.ResponseLimitBody.Probe | internal/server/auth.go:259-267 | at the limit one byte tells the end from an excess |
| LimitedBody.ResponseLimitBody.ReadAll | internal/server/auth.go:252-280 | over any sequence of buffer sizes the same holds, and too large is permanent |

## Left out

- SafeWriteLaws.ComposesExactly: leaves out trees in which a list of dropped capabilities names capabilities and also holds an object or a list, which the schema of that field forbids; `AcceptedTransitionsCompose` has no such condition.
- SafeWrite payload rules (`walkPayload`, `validateSafeJSONPatch`, Service exposure rules): fixed per-field refusals; in the protocol a request may be refused at any point, which covers them.
- Grace periods of deletes and timeouts of streams, which are passed through to the server.
- Execution of exec and attach: the stream transport and container defaulting in `remote.go` are foreign streams; the model stops at holding the slot.
- Execution.CaptureBinds: `previewOperation` writes fields of the operation it is given; the model returns the captured operation as a value, so aliasing of that pointer is not captured (the commit's SafeWrite preview runs on a copy, and so does the model).
- Identity of callers, policy rules and access reviews in the protocol: a request may end at any step, so denials need no step of their own; their verdicts are modelled in `Search`.
- Entropy and encoding failures of `PlanStore.Create`, which leave the store untouched.
- PlanStores.HashBindsCode: the confirmation hash is modelled by its preimage, so collisions of SHA-256 are not modelled; handle and revision digests are arbitrary functions instead.
- Integer width: sizes, counters and limits are unbounded integers; only cursor texts are bounded by the machine integer.
- Numbers in JSON are exact: `reflect.DeepEqual` between an integer and a float of the same value is not modelled.
- Search.SearchCatalog: context cancellation inside a search, which ends it with an error, is not modelled.
- Certificates, ConfigMaps and NetworkPolicy of the operator: opaque steps that succeed or fail and give any revision; status conditions and readiness are not modelled.
- OperatorGate.Cluster.Operate: reads see the current objects, not a client cache that may lag, and other actors act between reconciles, not between the calls of one.
- Per-kind summaries, tables and list envelopes of read output, output bounding, and the help manual: field copies.
- HTTP, TLS and MCP server setup, metrics, audit records, rate limiting, `schema_cache.go` and `runtimeconfig`: plumbing or easier accounting of the same kind.
