/** The operator's reconcile of one KubernetesMCPServer as a sequence of API calls, any of which may fail
    (internal/operator/reconciler.go). */
module OperatorGate {
  import opened JsonValues
  import opened Decimals

  const DISABLED := "disabled"
  const TOKEN_REVIEWER := "supek8smcp-tokenreviewer"

  datatype Server = Server(uid: string, generation: nat, ownCertificate: bool, finalizer: bool, deleting: bool)

  /** The Service's controller, its policy-revision annotation and the revision label of its selector ("" if absent). */
  datatype Service = Service(owned: bool, policy: string, revision: string)

  datatype Deployment = Deployment(owned: bool, replicas: Option<int>, revision: string)

  datatype Rule = Rule(groups: seq<string>, resources: seq<string>, verbs: seq<string>, names: seq<string>,
                       urls: seq<string>)

  datatype Role = Role(aggregated: bool, rules: seq<Rule>)

  datatype Binding = Binding(role: string, subject: string)

  datatype World = World(server: Option<Server>, service: Option<Service>, deployment: Option<Deployment>,
                         account: Option<bool>, role: Option<Role>, binding: Option<Binding>)

  /** A call works, fails without effect, or fails although it took effect. */
  datatype Outcome = Works | Lost | Ambiguous

  /** SHA-256 over the parts, cut to sixteen digits. */
  type Digest = seq<string> -> string

  function PolicyRevision(digest: Digest, s: Server): string { digest([s.uid, Itoa(s.generation)]) }

  function WorkloadRevision(digest: Digest, policy: string, image: string, config: string, tls: string): string {
    digest([policy, image, config, tls])
  }

  predicate ValidTokenReviewerRole(role: Role) {
    && !role.aggregated && |role.rules| == 1
    && role.rules[0] == Rule(["authentication.k8s.io"], ["tokenreviews"], ["create"], [], [])
  }

  /** What a role lets its subjects do, wildcards included. */
  predicate Grants(role: Role, group: string, resource: string, verb: string) {
    exists i :: 0 <= i < |role.rules| &&
      var rule := role.rules[i];
      && (group in rule.groups || "*" in rule.groups)
      && (resource in rule.resources || "*" in rule.resources)
      && (verb in rule.verbs || "*" in rule.verbs)
  }

  /** Token reviews may be created, and nothing else be done. */
  ghost predicate GrantsOnlyReviews(role: Role) {
    && !role.aggregated
    && (forall i :: 0 <= i < |role.rules| ==> role.rules[i].names == [] && role.rules[i].urls == [])
    && forall group, resource, verb ::
         Grants(role, group, resource, verb) <==>
         group == "authentication.k8s.io" && resource == "tokenreviews" && verb == "create"
  }

  /** The role the operator accepts is the one with the single rule for token reviews, which grants just that. */
  lemma {:induction false} ReviewerRoleGrantsOnlyReviews(role: Role)
    ensures ValidTokenReviewerRole(role) ==> GrantsOnlyReviews(role)
    ensures ValidTokenReviewerRole(role) <==>
            role == Role(false, [Rule(["authentication.k8s.io"], ["tokenreviews"], ["create"], [], [])])
  {
    if ValidTokenReviewerRole(role) {
      var rule := role.rules[0];
      assert forall text :: text in rule.groups <==> text == "authentication.k8s.io";
      assert forall text :: text in rule.resources <==> text == "tokenreviews";
      assert forall text :: text in rule.verbs <==> text == "create";
      assert role.rules == [rule];
    }
  }

  // ----- what every API write keeps -----

  ghost predicate Computed(digest: Digest, policy: string, revision: string) {
    exists image, config, tls :: revision == WorkloadRevision(digest, policy, image, config, tls)
  }

  /** An owned Service selects nothing, or a workload of the policy revision it is annotated with; the cluster-wide
      binding exists only while the server's finalizer guards its removal. */
  ghost predicate Sound(digest: Digest, w: World) {
    && (w.service.Some? && w.service.value.owned ==>
          w.service.value.revision == DISABLED || Computed(digest, w.service.value.policy, w.service.value.revision))
    && (w.binding.Some? ==> w.server.Some? && w.server.value.finalizer)
  }

  /** The revisions reconcileService is called with: disabled, computed from the policy, or irrelevant because the
      Service belongs to somebody else and will be left alone. */
  ghost predicate MayTarget(digest: Digest, w: World, policy: string, revision: string) {
    || (w.service.Some? && !w.service.value.owned)
    || revision == DISABLED
    || Computed(digest, policy, revision)
  }

  predicate Gated(w: World, policy: string) {
    w.service.Some? && w.service.value.owned && w.service.value.policy == policy
  }

  /** The trace grew, and every state it grew by is sound and, when a policy is given, gated for that policy. */
  ghost predicate Steady(digest: Digest, before: seq<World>, after: seq<World>, policy: Option<string>) {
    && |before| <= |after| && after[..|before|] == before
    && forall i :: |before| <= i < |after| ==>
         Sound(digest, after[i]) && (policy.Some? ==> Gated(after[i], policy.value))
  }

  lemma {:induction false} SteadyChain(digest: Digest, a: seq<World>, b: seq<World>, c: seq<World>,
                                       first: Option<string>, second: Option<string>)
    requires Steady(digest, a, b, first) && Steady(digest, b, c, second)
    ensures Steady(digest, a, c, None)
    ensures first == second ==> Steady(digest, a, c, first)
  {
    assert c[..|a|] == c[..|b|][..|a|];
    forall i | |a| <= i < |c|
      ensures Sound(digest, c[i]) && (first == second && first.Some? ==> Gated(c[i], first.value))
    {
      if i < |b| {
        assert c[i] == c[..|b|][i];
      }
    }
  }

  lemma {:induction false} SteadyStep(digest: Digest, before: seq<World>, w: World, policy: Option<string>)
    requires Sound(digest, w) && (policy.Some? ==> Gated(w, policy.value))
    ensures Steady(digest, before, before + [w], policy)
  {
  }

  function PolicyOf(w: World): Option<string> {
    if w.service.Some? && w.service.value.owned then Some(w.service.value.policy) else None
  }

  /** A stretch of calls that never lets go of soundness nor of the policy the Service is gated for. */
  ghost predicate Kept(digest: Digest, before: World, earlier: seq<World>, after: World, later: seq<World>) {
    && Sound(digest, after) && PolicyOf(after) == PolicyOf(before)
    && Steady(digest, earlier, later, PolicyOf(before))
  }

  lemma {:induction false} KeptChain(digest: Digest, a: World, aTrace: seq<World>, b: World, bTrace: seq<World>,
                                     c: World, cTrace: seq<World>)
    requires Kept(digest, a, aTrace, b, bTrace) && Kept(digest, b, bTrace, c, cTrace)
    ensures Kept(digest, a, aTrace, c, cTrace)
  {
    SteadyChain(digest, aTrace, bTrace, cTrace, PolicyOf(a), PolicyOf(a));
  }

  lemma {:induction false} KeptStep(digest: Digest, before: World, earlier: seq<World>, after: World)
    requires Sound(digest, after) && PolicyOf(after) == PolicyOf(before)
    ensures Kept(digest, before, earlier, after, earlier + [after])
  {
    SteadyStep(digest, earlier, after, PolicyOf(before));
  }

  lemma {:induction false} KeptIsSteady(digest: Digest, before: World, earlier: seq<World>, after: World,
                                        later: seq<World>)
    requires Kept(digest, before, earlier, after, later)
    ensures Steady(digest, earlier, later, None)
  {
  }

  /** At most one write, after which the cluster is as it is now. */
  ghost predicate AtMostOne(before: World, earlier: seq<World>, after: World, later: seq<World>) {
    (later == earlier && after == before) || later == earlier + [after]
  }

  /** Only the Service may differ, and the Deployment only by running nothing. */
  predicate OnlyShutting(before: World, w: World) {
    && w == before.(service := w.service, deployment := w.deployment)
    && (w.deployment == before.deployment || NoReplicas(w))
  }

  ghost predicate ShutsOnly(before: World, earlier: seq<World>, later: seq<World>) {
    |earlier| <= |later| && forall i :: |earlier| <= i < |later| ==> OnlyShutting(before, later[i])
  }

  /** The Service is as it was, or selects what the Deployment already runs. */
  predicate TargetRuns(before: World, w: World) {
    w.service == before.service ||
    (w.service.Some? && w.deployment == Some(Deployment(true, Some(1), w.service.value.revision)))
  }

  ghost predicate TargetsRun(before: World, earlier: seq<World>, later: seq<World>) {
    |earlier| <= |later| && forall i :: |earlier| <= i < |later| ==> TargetRuns(before, later[i])
  }

  /** Behind the gate anything may be set up; before it, only the Service changes and workloads only stop. */
  ghost predicate GateFirst(before: World, earlier: seq<World>, later: seq<World>, policy: string) {
    |earlier| <= |later| &&
    forall i :: |earlier| <= i < |later| ==> Gated(later[i], policy) || OnlyShutting(before, later[i])
  }

  lemma {:induction false} GatedFromHere(digest: Digest, before: World, earlier: seq<World>, gated: World,
                                         middle: seq<World>,
                                         after: World, later: seq<World>, policy: string)
    requires AtMostOne(before, earlier, gated, middle) && OnlyShutting(before, gated)
    requires PolicyOf(gated) == Some(policy) && Kept(digest, gated, middle, after, later)
    ensures GateFirst(before, earlier, later, policy)
  {
    forall i | |earlier| <= i < |later| ensures Gated(later[i], policy) || OnlyShutting(before, later[i]) {
      if i < |middle| {
        assert later[i] == later[..|middle|][i];
      }
    }
  }

  lemma {:induction false} ShutFromHere(before: World, earlier: seq<World>, failed: World, middle: seq<World>,
                                        later: seq<World>, policy: string)
    requires AtMostOne(before, earlier, failed, middle) && failed == before.(service := failed.service)
    requires ShutsOnly(failed, middle, later) && later[..|middle|] == middle
    ensures GateFirst(before, earlier, later, policy)
  {
    forall i | |earlier| <= i < |later| ensures OnlyShutting(before, later[i]) {
      if i < |middle| {
        assert later[i] == later[..|middle|][i];
      }
    }
  }

  /** Nothing is served: the selector is the disabled revision and no Deployment keeps a replica. */
  predicate Shut(w: World, policy: string) {
    && w.service == Some(Service(true, policy, DISABLED))
    && NoReplicas(w)
  }

  predicate NoReplicas(w: World) {
    w.deployment.Some? ==> w.deployment.value.replicas == Some(0)
  }

  /** The Service selects exactly the workload that the Deployment runs, for this policy and image. */
  ghost predicate Serving(digest: Digest, w: World, policy: string, image: string) {
    exists config, tls ::
      var revision := WorkloadRevision(digest, policy, image, config, tls);
      && w.service == Some(Service(true, policy, revision))
      && w.deployment == Some(Deployment(true, Some(1), revision))
  }

  predicate ServiceOwnable(w: World) { w.service.Some? ==> w.service.value.owned }

  predicate DeploymentOwnable(w: World) { w.deployment.Some? ==> w.deployment.value.owned }

  /** The account, the role and any present binding allow the server to be given its binding. */
  predicate Authenticable(w: World) {
    && (w.account.Some? ==> w.account.value)
    && w.role.Some? && ValidTokenReviewerRole(w.role.value)
    && (w.binding.Some? ==> w.binding.value.role == TOKEN_REVIEWER)
  }

  /** What made a reconcile fail; a refused authentication also says whether its binding was removed. */
  datatype Reason = AtGate | AtAuthentication(removed: bool) | AtCertificates | AtResources

  datatype Exit =
    | Gone
    | Finalized
    | Requeued
    | Errored
    | Failed(reason: Reason, serviceOff: bool, podsOff: bool)
    | Done

  /** What shutting down achieves when its own calls succeed: only foreign objects stop it, each half by its own. */
  predicate ShutsDown(before: World, serviceOff: bool, podsOff: bool) {
    && (serviceOff <==> ServiceOwnable(before))
    && (podsOff <==> DeploymentOwnable(before) || NoReplicas(before))
  }

  predicate Live(w: World) {
    w.server.Some? && w.server.value.finalizer && !w.server.value.deleting
  }

  /** How a live server's reconcile ends when no call fails. */
  function FaultlessExit(w: World): Exit {
    var podsOff := DeploymentOwnable(w) || NoReplicas(w);
    if !ServiceOwnable(w) then Failed(AtGate, false, podsOff)
    else if !Authenticable(w) then Failed(AtAuthentication(true), true, podsOff)
    else if !DeploymentOwnable(w) then Failed(AtResources, true, podsOff)
    else Done
  }

  /** How a reconcile ends when no call fails and there is no live server to serve. */
  function IdleExit(w: World): Exit {
    if w.server.None? then Gone
    else if w.server.value.deleting then Finalized
    else Requeued
  }

  /** What a failed exit owes to its calls.  The shutdown began at the call given and ended before the last one, three
      to five calls in all; if its calls worked, whatever happened before, an owned Service is disabled and an owned
      Deployment stopped.  A refused authentication ended with the removal of the binding. */
  ghost predicate FailedFrom(weather: nat -> Outcome, before: World, start: nat, entered: nat, end: nat, exit: Exit)
    requires exit.Failed?
  {
    && start < entered && entered + 3 <= end <= entered + 5
    && (AllWork(weather, entered, end - 1) ==>
          && (ServiceOwnable(before) ==> exit.serviceOff)
          && (DeploymentOwnable(before) || NoReplicas(before) ==> exit.podsOff))
    && (exit.reason.AtAuthentication? ==> (exit.reason.removed <==> weather(entered - 1).Works?))
  }

  /** What a failed exit reports is so. */
  predicate FailedTruly(w: World, policy: string, exit: Exit)
    requires exit.Failed?
  {
    && (exit.serviceOff ==> w.service == Some(Service(true, policy, DISABLED)))
    && (exit.podsOff ==> NoReplicas(w))
    && (exit.reason == AtAuthentication(true) ==> w.binding.None?)
  }

  /** What other actors may do between reconciles: anything to objects the operator does not own, deletions, and new
      generations of the server; they do not forge an owned Service, a binding or the removal of a needed finalizer. */
  predicate OutsideMayDo(before: World, after: World) {
    && (after.service.Some? && after.service.value.owned ==> after.service == before.service)
    && (after.binding.Some? ==> before.binding.Some? && after.server.Some? && after.server.value.finalizer)
  }

  datatype Event = Reconciled(image: string) | Outside(after: World)

  /** The calls from one number up to another all work. */
  predicate AllWork(weather: nat -> Outcome, first: nat, end: nat) {
    forall k: nat :: first <= k < end ==> weather(k).Works?
  }

  class Cluster {
    const digest: Digest
    const weather: nat -> Outcome
    const revisions: nat -> string
    const subject: string

    var world: World
    var calls: nat
    ghost var trace: seq<World>

    constructor (digest: Digest, weather: nat -> Outcome, revisions: nat -> string, subject: string, world: World)
      requires Sound(digest, world)
      ensures this.digest == digest && this.weather == weather && this.revisions == revisions && this.subject == subject
      ensures this.world == world && trace == [world] && calls == 0
    {
      this.digest, this.weather, this.revisions, this.subject := digest, weather, revisions, subject;
      this.world, calls, trace := world, 0, [world];
    }

    /** Any call that changes nothing here: a read, or a step on an object this model leaves opaque. */
    method Reach() returns (ok: bool)
      modifies this`calls
      ensures calls == old(calls) + 1 && (ok <==> weather(old(calls)).Works?)
    {
      ok := weather(calls).Works?;
      calls := calls + 1;
    }

    method Apply(next: World) returns (ok: bool)
      modifies this
      ensures calls == old(calls) + 1 && (ok <==> weather(old(calls)).Works?)
      ensures if ok then world == next else world == next || world == old(world)
      ensures trace == old(trace) + [world]
    {
      var outcome := weather(calls);
      calls := calls + 1;
      ok := outcome.Works?;
      if !outcome.Lost? {
        world := next;
      }
      trace := trace + [world];
    }

    /** CreateOrUpdate of the Service: the only place that writes it. */
    method ReconcileService(policy: string, revision: string) returns (ok: bool)
      requires Sound(digest, world)
      requires MayTarget(digest, world, policy, revision)
      modifies this
      ensures old(calls) <= calls
      ensures world == old(world).(service := world.service)
      ensures ok ==> world.service == Some(Service(true, policy, revision))
      ensures world.service == old(world.service) || world.service == Some(Service(true, policy, revision))
      ensures old(calls) + 1 <= calls <= old(calls) + 2
      ensures !ok ==> !AllWork(weather, old(calls), calls) || !ServiceOwnable(old(world))
      ensures !ServiceOwnable(old(world)) ==> !ok && world == old(world)
      ensures Sound(digest, world) && Steady(digest, old(trace), trace, None)
      ensures PolicyOf(old(world)) == Some(policy) ==> Kept(digest, old(world), old(trace), world, trace)
      ensures AtMostOne(old(world), old(trace), world, trace)
    {
      ok := Reach();
      if !ok {
        return;
      }
      if world.service.Some? && !world.service.value.owned {
        return false;
      }
      var wanted := Some(Service(true, policy, revision));
      if world.service != wanted {
        ok := Apply(world.(service := wanted));
        assert Sound(digest, world);
        SteadyStep(digest, old(trace), world, None);
        if PolicyOf(old(world)) == Some(policy) {
          KeptStep(digest, old(world), old(trace), world);
        }
      }
    }

    /** Before anything else changes, the Service is annotated with the new policy; it keeps its target only if it
        already had that policy. */
    method ReconcileServiceGate(policy: string) returns (ok: bool)
      requires Sound(digest, world)
      modifies this
      ensures old(calls) <= calls
      ensures world == old(world).(service := world.service)
      ensures ok ==> Gated(world, policy) &&
                     (world.service.value.revision == DISABLED || old(world.service) == world.service)
      ensures ServiceOwnable(old(world)) ==> ServiceOwnable(world)
      ensures !ok ==> !AllWork(weather, old(calls), calls) || !ServiceOwnable(old(world))
      ensures !ServiceOwnable(old(world)) ==> !ok && world == old(world)
      ensures Sound(digest, world) && Steady(digest, old(trace), trace, None)
      ensures AtMostOne(old(world), old(trace), world, trace)
    {
      ok := Reach();
      if !ok {
        return;
      }
      if world.service.None? {
        ok := ReconcileService(policy, DISABLED);
        return;
      }
      var target := world.service.value.revision;
      if world.service.value.policy != policy || target == "" || target == DISABLED {
        target := DISABLED;
      }
      ok := ReconcileService(policy, target);
    }

    method ReconcileServiceAccount() returns (ok: bool)
      requires Sound(digest, world)
      modifies this
      ensures old(calls) <= calls
      ensures world == old(world).(account := world.account)
      ensures ok ==> world.account == Some(true)
      ensures old(world.account) == Some(false) ==> !ok && world == old(world)
      ensures !ok ==> !AllWork(weather, old(calls), calls) || old(world.account) == Some(false)
      ensures Kept(digest, old(world), old(trace), world, trace)
    {
      ok := Reach();
      if !ok {
        return;
      }
      if world.account.Some? && !world.account.value {
        return false;
      }
      if world.account.None? {
        ok := Apply(world.(account := Some(true)));
        KeptStep(digest, old(world), old(trace), world);
      }
    }

    /** Removes the binding; a binding that is already gone is no error. */
    method RejectDelegatedAuthentication() returns (removed: bool)
      requires Sound(digest, world)
      modifies this
      ensures old(calls) <= calls
      ensures calls == old(calls) + 1 && (removed <==> weather(old(calls)).Works?)
      ensures world == old(world).(binding := world.binding)
      ensures removed ==> world.binding.None?
      ensures Kept(digest, old(world), old(trace), world, trace)
    {
      removed := Apply(world.(binding := None));
      KeptStep(digest, old(world), old(trace), world);
    }

    /** Whether the ServiceAccount and the ClusterRole allow a binding at all. */
    method MayBind() returns (ok: bool)
      modifies this`calls
      ensures old(calls) <= calls
      ensures ok ==> world.account == Some(true) && world.role.Some? && ValidTokenReviewerRole(world.role.value)
      ensures !ok && AllWork(weather, old(calls), calls) ==> world.account.None? || !Authenticable(world)
    {
      ok := Reach();
      if !ok || world.account != Some(true) {
        return false;
      }
      ok := Reach();
      ok := ok && world.role.Some? && ValidTokenReviewerRole(world.role.value);
    }

    /** A refusal whose own calls succeed leaves no binding behind. */
    method ReconcileDelegatedAuthentication() returns (ok: bool, removed: bool)
      requires Sound(digest, world) && world.server.Some? && world.server.value.finalizer
      modifies this
      ensures old(calls) <= calls
      ensures world == old(world).(binding := world.binding)
      ensures ok ==> world.binding == Some(Binding("supek8smcp-tokenreviewer", subject)) && world.account == Some(true)
      ensures ok ==> Authenticable(old(world))
      ensures ok ==> GrantsOnlyReviews(old(world).role.value)
      ensures !ok && removed ==> world.binding.None?
      ensures !ok ==> old(calls) < calls && (removed <==> weather(calls - 1).Works?)
      ensures !ok && AllWork(weather, old(calls), calls) ==> old(world.account).None? || !Authenticable(old(world))
      ensures Kept(digest, old(world), old(trace), world, trace)
    {
      removed := false;
      if world.role.Some? {
        ReviewerRoleGrantsOnlyReviews(world.role.value);
      }
      ok := MayBind();
      if ok {
        ok := Reach();
      }
      if !ok {
        removed := RejectDelegatedAuthentication();
        return;
      }
      if world.binding.Some? && world.binding.value.role != TOKEN_REVIEWER {
        removed := RejectDelegatedAuthentication();
        return false, removed;
      }
      ok := Reach();
      var wanted := Some(Binding(TOKEN_REVIEWER, subject));
      if ok && world.binding != wanted {
        ok := Apply(world.(binding := wanted));
        KeptStep(digest, old(world), old(trace), world);
      }
      if !ok {
        ghost var middle, middleTrace := world, trace;
        removed := RejectDelegatedAuthentication();
        KeptChain(digest, old(world), old(trace), middle, middleTrace, world, trace);
      }
    }

    method ReconcileDeployment(revision: string) returns (ok: bool)
      requires Sound(digest, world)
      modifies this
      ensures old(calls) <= calls
      ensures world == old(world).(deployment := world.deployment)
      ensures ok ==> world.deployment == Some(Deployment(true, Some(1), revision))
      ensures world.deployment == old(world.deployment) || world.deployment == Some(Deployment(true, Some(1), revision))
      ensures !DeploymentOwnable(old(world)) ==> !ok && world == old(world)
      ensures AtMostOne(old(world), old(trace), world, trace)
      ensures !ok ==> !AllWork(weather, old(calls), calls) || !DeploymentOwnable(old(world))
      ensures Kept(digest, old(world), old(trace), world, trace)
    {
      ok := Reach();
      if !ok {
        return;
      }
      if world.deployment.Some? && !world.deployment.value.owned {
        return false;
      }
      var wanted := Some(Deployment(true, Some(1), revision));
      if world.deployment != wanted {
        ok := Apply(world.(deployment := wanted));
        KeptStep(digest, old(world), old(trace), world);
      }
    }

    /** ConfigMaps, NetworkPolicy, then the Deployment, and only then the Service that selects it. */
    method ReconcileResources(policy: string, image: string, tls: string) returns (ok: bool)
      requires Sound(digest, world) && Gated(world, policy)
      modifies this
      ensures old(calls) <= calls
      ensures world == old(world).(service := world.service, deployment := world.deployment)
      ensures ok ==> Serving(digest, world, policy, image)
      ensures ok ==> world.deployment.value.revision ==
                     WorkloadRevision(digest, policy, image, revisions(old(calls)), tls)
      ensures !ok ==> !AllWork(weather, old(calls), calls) || !DeploymentOwnable(old(world))
      ensures if DeploymentOwnable(old(world)) then DeploymentOwnable(world) else !ok && world == old(world)
      ensures Kept(digest, old(world), old(trace), world, trace)
      ensures TargetsRun(old(world), old(trace), trace)
    {
      var config := revisions(calls);
      ok := Reach();
      if ok {
        ok := Reach();
      }
      if ok {
        ok := Reach();
      }
      if !ok {
        return;
      }
      var revision := WorkloadRevision(digest, policy, image, config, tls);
      ok := ReconcileDeployment(revision);
      if ok {
        ghost var middle, middleTrace := world, trace;
        ok := ReconcileService(policy, revision);
        KeptChain(digest, old(world), old(trace), middle, middleTrace, world, trace);
      }
    }

    /** disableServer: the Deployment is scaled down even when the Service could not be disabled. */
    method DisableServer(policy: string) returns (serviceOff: bool, podsOff: bool)
      requires Sound(digest, world)
      modifies this
      ensures old(calls) <= calls
      ensures world == old(world).(service := world.service, deployment := world.deployment)
      ensures ShutsOnly(old(world), old(trace), trace)
      ensures serviceOff ==> world.service == Some(Service(true, policy, "disabled"))
      ensures podsOff ==> (world.deployment.Some? ==> world.deployment.value.replicas == Some(0))
      ensures old(calls) + 2 <= calls <= old(calls) + 4
      ensures AllWork(weather, old(calls), calls) ==> ShutsDown(old(world), serviceOff, podsOff)
      ensures Sound(digest, world) && Steady(digest, old(trace), trace, None)
      ensures PolicyOf(old(world)) == Some(policy) ==> Kept(digest, old(world), old(trace), world, trace)
    {
      serviceOff := ReconcileService(policy, DISABLED);
      ghost var middle, middleTrace := world, trace;
      podsOff := ScaleToZero();
      KeptIsSteady(digest, middle, middleTrace, world, trace);
      SteadyChain(digest, old(trace), middleTrace, trace, None, None);
      if PolicyOf(old(world)) == Some(policy) {
        KeptChain(digest, old(world), old(trace), middle, middleTrace, world, trace);
      }
    }

    method ScaleToZero() returns (podsOff: bool)
      requires Sound(digest, world)
      modifies this
      ensures old(calls) <= calls
      ensures OnlyShutting(old(world), world) && world.service == old(world.service)
      ensures AtMostOne(old(world), old(trace), world, trace)
      ensures podsOff ==> NoReplicas(world)
      ensures old(calls) + 1 <= calls <= old(calls) + 2
      ensures !DeploymentOwnable(old(world)) ==> world == old(world)
      ensures AllWork(weather, old(calls), calls) ==>
                (podsOff <==> DeploymentOwnable(old(world)) || NoReplicas(old(world)))
      ensures Kept(digest, old(world), old(trace), world, trace)
    {
      podsOff := Reach();
      if !podsOff || NoReplicas(world) {
        return;
      }
      if !world.deployment.value.owned {
        return false;
      }
      podsOff := Apply(world.(deployment := Some(world.deployment.value.(replicas := Some(0)))));
      KeptStep(digest, old(world), old(trace), world);
    }

    /** Every failing exit but two goes through here.  All its calls but the last, a status update, are the shutdown. */
    method Fail(policy: string, reason: Reason) returns (exit: Exit)
      requires Sound(digest, world) && (reason == AtAuthentication(true) ==> world.binding.None?)
      modifies this
      ensures old(calls) <= calls
      ensures exit.Failed? && exit.reason == reason && FailedTruly(world, policy, exit)
      ensures ShutsOnly(old(world), old(trace), trace)
      ensures old(calls) + 3 <= calls <= old(calls) + 5
      ensures AllWork(weather, old(calls), calls - 1) ==> ShutsDown(old(world), exit.serviceOff, exit.podsOff)
      ensures AllWork(weather, old(calls), calls - 1) && ServiceOwnable(old(world)) && DeploymentOwnable(old(world)) ==>
                Shut(world, policy)
      ensures Sound(digest, world) && Steady(digest, old(trace), trace, None)
      ensures PolicyOf(old(world)) == Some(policy) ==> Kept(digest, old(world), old(trace), world, trace)
    {
      var serviceOff, podsOff := DisableServer(policy);
      var _ := Reach();
      exit := Failed(reason, serviceOff, podsOff);
    }

    /** The root of an own certificate, if one is needed, and the serving certificate. */
    method EnsureCertificates(s: Server) returns (ok: bool)
      modifies this`calls
      ensures old(calls) < calls && (ok <==> AllWork(weather, old(calls), calls))
    {
      if s.ownCertificate {
        ok := Reach();
        if !ok {
          return;
        }
      }
      ok := Reach();
    }

    /** Everything after the gate: until it ends, the Service stays gated for this policy. */
    method ReconcileGated(s: Server, policy: string, image: string) returns (exit: Exit, ghost entered: nat)
      requires Sound(digest, world) && Gated(world, policy) && world.server == Some(s) && s.finalizer
      modifies this
      ensures old(calls) <= calls
      ensures exit.Failed? || exit.Errored? || exit.Done?
      ensures exit.Failed? ==> FailedTruly(world, policy, exit)
      ensures exit.Failed? ==> FailedFrom(weather, old(world), old(calls), entered, calls, exit)
      ensures exit.Done? || exit.Errored? ==>
                Serving(digest, world, policy, image) && world.binding == Some(Binding(TOKEN_REVIEWER, subject))
      ensures AllWork(weather, old(calls), calls) ==> exit == FaultlessExit(old(world))
      ensures Kept(digest, old(world), old(trace), world, trace)
    {
      var ok, removed := PrepareAuthentication();
      ghost var middle, middleTrace := world, trace;
      var reason, tls := if ok then AtCertificates else AtAuthentication(removed), revisions(calls);
      if ok {
        ok := EnsureCertificates(s);
      }
      if !ok {
        entered := calls;
        exit := Fail(policy, reason);
        KeptChain(digest, old(world), old(trace), middle, middleTrace, world, trace);
        return;
      }
      ok := ReconcileResources(policy, image, tls);
      KeptChain(digest, old(world), old(trace), middle, middleTrace, world, trace);
      if !ok {
        middle, middleTrace := world, trace;
        entered := calls;
        exit := Fail(policy, AtResources);
        KeptChain(digest, old(world), old(trace), middle, middleTrace, world, trace);
        return;
      }
      ok := Reach();
      if ok {
        ok := Reach();
      }
      exit, entered := if ok then Done else Errored, calls;
    }

    /** The ServiceAccount, then the binding that trusts it. */
    method PrepareAuthentication() returns (ok: bool, removed: bool)
      requires Sound(digest, world) && world.server.Some? && world.server.value.finalizer
      modifies this
      ensures old(calls) <= calls
      ensures world == old(world).(account := world.account, binding := world.binding)
      ensures ok ==> world.binding == Some(Binding(TOKEN_REVIEWER, subject)) && world.account == Some(true)
      ensures !ok && removed ==> world.binding.None?
      ensures !ok ==> old(calls) < calls && (removed <==> weather(calls - 1).Works?)
      ensures ok ==> Authenticable(old(world))
      ensures AllWork(weather, old(calls), calls) && Authenticable(old(world)) ==> ok
      ensures Kept(digest, old(world), old(trace), world, trace)
    {
      ok := ReconcileServiceAccount();
      ghost var middle, middleTrace := world, trace;
      if ok {
        ok, removed := ReconcileDelegatedAuthentication();
      } else {
        removed := RejectDelegatedAuthentication();
      }
      KeptChain(digest, old(world), old(trace), middle, middleTrace, world, trace);
    }

    /** The finalizer goes only after the binding is gone. */
    method Finalize(s: Server) returns (exit: Exit)
      requires Sound(digest, world) && world.server == Some(s)
      modifies this
      ensures old(calls) <= calls
      ensures exit.Finalized? || exit.Errored?
      ensures AllWork(weather, old(calls), calls) ==> exit.Finalized?
      ensures exit.Finalized? && s.finalizer ==> world.server == Some(s.(finalizer := false)) && world.binding.None?
      ensures world.service == old(world.service) && world.deployment == old(world.deployment)
      ensures Kept(digest, old(world), old(trace), world, trace)
    {
      if !s.finalizer {
        return Finalized;
      }
      var ok := RejectDelegatedAuthentication();
      if !ok {
        return Errored;
      }
      ghost var middle, middleTrace := world, trace;
      ok := Apply(world.(server := Some(s.(finalizer := false))));
      KeptStep(digest, middle, middleTrace, world);
      KeptChain(digest, old(world), old(trace), middle, middleTrace, world, trace);
      exit := if ok then Finalized else Errored;
    }

    /** One reconcile, whatever its calls do: every state it passes through is sound; a successful exit serves the
        server's own policy; a failing exit whose shutdown calls work disables an owned Service and stops an owned
        Deployment, whoever owns the rest.  Without faults the objects it found decide how it ends. */
    method Reconcile(image: string) returns (exit: Exit, ghost entered: nat)
      requires Sound(digest, world)
      modifies this
      ensures Sound(digest, world) && Steady(digest, old(trace), trace, None)
      ensures exit.Done? ==> old(world.server).Some? &&
                             Serving(digest, world, PolicyRevision(digest, old(world.server).value), image) &&
                             world.binding == Some(Binding(TOKEN_REVIEWER, subject))
      ensures exit.Failed? ==> Live(old(world)) &&
                               FailedTruly(world, PolicyRevision(digest, old(world.server).value), exit)
      ensures exit.Failed? ==> FailedFrom(weather, old(world), old(calls), entered, calls, exit)
      ensures Live(old(world)) ==>
                GateFirst(old(world), old(trace), trace, PolicyRevision(digest, old(world.server).value))
      ensures exit.Finalized? ==> old(world.server).Some? && old(world.server).value.deleting
      ensures exit.Finalized? && old(world.server).value.finalizer ==>
                world.binding.None? && world.server == Some(old(world.server).value.(finalizer := false))
      ensures exit.Gone? ==> old(world.server).None? && world == old(world)
      ensures exit.Requeued? ==>
                && old(world.server).Some? && !old(world.server).value.deleting
                && world == old(world).(server := Some(old(world.server).value.(finalizer := true)))
      ensures AllWork(weather, old(calls), calls) ==>
                exit == if Live(old(world)) then FaultlessExit(old(world)) else IdleExit(old(world))
    {
      entered := calls;
      var ok := Reach();
      if !ok {
        return Errored, entered;
      }
      if world.server.None? {
        return Gone, entered;
      }
      var s := world.server.value;
      if s.deleting {
        exit := Finalize(s);
        KeptIsSteady(digest, old(world), old(trace), world, trace);
        return;
      }
      if !s.finalizer {
        ok := Apply(world.(server := Some(s.(finalizer := true))));
        SteadyStep(digest, old(trace), world, None);
        return if ok then Requeued else Errored, entered;
      }
      var policy := PolicyRevision(digest, s);
      ok := ReconcileServiceGate(policy);
      ghost var middle, middleTrace := world, trace;
      if ok {
        exit, entered := ReconcileGated(s, policy, image);
        KeptIsSteady(digest, middle, middleTrace, world, trace);
        GatedFromHere(digest, old(world), old(trace), middle, middleTrace, world, trace, policy);
      } else {
        entered := calls;
        exit := Fail(policy, AtGate);
        ShutFromHere(old(world), old(trace), middle, middleTrace, trace, policy);
      }
      SteadyChain(digest, old(trace), middleTrace, trace, None, None);
    }

    method Interfere(after: World)
      requires Sound(digest, world) && OutsideMayDo(world, after)
      modifies this`world, this`trace
      ensures world == after && Sound(digest, world) && Steady(digest, old(trace), trace, None)
    {
      world := after;
      trace := trace + [world];
      SteadyStep(digest, old(trace), world, None);
    }

    /** Any run: reconciles with any images and failures, between which other actors interfere. */
    method Operate(events: seq<Event>)
      requires Sound(digest, world)
      modifies this
      ensures Sound(digest, world) && Steady(digest, old(trace), trace, None)
    {
      for i := 0 to |events|
        invariant Sound(digest, world) && Steady(digest, old(trace), trace, None)
      {
        ghost var middleTrace := trace;
        match events[i]
        case Reconciled(image) =>
          var _, _ := Reconcile(image);
          SteadyChain(digest, old(trace), middleTrace, trace, None, None);
        case Outside(after) =>
          if OutsideMayDo(world, after) {
            Interfere(after);
            SteadyChain(digest, old(trace), middleTrace, trace, None, None);
          }
      }
    }
  }

  // ----- what soundness means for traffic -----

  /** Distinct inputs give distinct revisions, and none looks like the disabled one. */
  ghost predicate Injective(digest: Digest) {
    && (forall parts :: digest(parts) != DISABLED)
    && forall parts, others :: digest(parts) == digest(others) ==> parts == others
  }

  /** In no state a run passes through does an owned Service select a workload of another policy than the one it is
      annotated with. */
  lemma {:induction false} NoStaleWorkload(digest: Digest, before: seq<World>, trace: seq<World>, i: nat,
                                           policy: string, image: string, config: string, tls: string)
    requires Injective(digest) && Steady(digest, before, trace, None) && |before| <= i < |trace|
    requires trace[i].service.Some? && trace[i].service.value.owned
    requires trace[i].service.value.revision == WorkloadRevision(digest, policy, image, config, tls)
    ensures policy == trace[i].service.value.policy
  {
    var s := trace[i].service.value;
    assert Sound(digest, trace[i]);
    var image', config', tls' :| s.revision == WorkloadRevision(digest, s.policy, image', config', tls');
    assert [policy, image, config, tls] == [s.policy, image', config', tls'];
    assert [policy, image, config, tls][0] == [s.policy, image', config', tls'][0];
  }

  /** Any change to the policy, the image, the configuration or the certificate is a new workload revision. */
  lemma {:induction false} WorkloadsHaveDistinctRevisions(digest: Digest, one: seq<string>, other: seq<string>)
    requires Injective(digest) && |one| == |other| == 4
    ensures WorkloadRevision(digest, one[0], one[1], one[2], one[3]) ==
            WorkloadRevision(digest, other[0], other[1], other[2], other[3])
            <==> one == other
  {
    assert one == [one[0], one[1], one[2], one[3]];
    assert other == [other[0], other[1], other[2], other[3]];
  }

  /** A new generation is a new policy revision, so the gate never mistakes one policy for another. */
  lemma {:induction false} GenerationsHaveDistinctRevisions(digest: Digest, a: Server, b: Server)
    requires Injective(digest)
    ensures PolicyRevision(digest, a) == PolicyRevision(digest, b) <==> a.uid == b.uid && a.generation == b.generation
  {
    if PolicyRevision(digest, a) == PolicyRevision(digest, b) {
      var one, other := [a.uid, Itoa(a.generation)], [b.uid, Itoa(b.generation)];
      assert one == other;
      assert one[0] == other[0] && one[1] == other[1];
      ItoaReadsBack(a.generation);
      ItoaReadsBack(b.generation);
    }
  }
}
