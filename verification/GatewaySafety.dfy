/** Every step of the plan/commit protocol keeps the invariant, and what that means for whole runs. */
module GatewaySafety {
  import opened JsonValues
  import opened Operations
  import opened Patches
  import opened Execution
  import opened PlanStores
  import opened Admission
  import opened Gateway

  // ----- what only ever grows -----

  ghost predicate VersionsKept(api: Api, later: Api) {
    forall version :: version in api.versions ==>
      version in later.versions && later.versions[version] == api.versions[version]
  }

  /** An identifier that was ever issued or presented names a later plan only if it names the same plan now. */
  ghost predicate NothingReturns(g: Ledger, later: Ledger) {
    forall id :: id in later.plans && id in g.seenIds ==>
      && id in g.plans
      && later.plans[id].subject == g.plans[id].subject
      && later.plans[id].operation == g.plans[id].operation
  }

  ghost predicate Later(g: Ledger, later: Ledger) {
    && VersionsKept(g.api, later.api)
    && (forall id :: id in g.created ==> id in later.created && later.created[id] == g.created[id])
    && g.seenIds <= later.seenIds
    && g.consumed <= later.consumed
    && NothingReturns(g, later)
  }

  lemma {:induction false} ConsumedIdKept(g: Ledger, later: Ledger, id: string)
    requires g.consumed <= later.consumed && ConsumedId(g, id)
    ensures ConsumedId(later, id)
  {
    var i :| 0 <= i < |g.consumed| && g.consumed[i].id == id;
    assert later.consumed[i].id == id;
  }

  lemma {:induction false} ProcStaysSound(cfg: Config, g: Ledger, later: Ledger, proc: Proc)
    requires Later(g, later) && ProcSound(cfg, g, proc)
    ensures ProcSound(cfg, later, proc)
  {
    match proc.phase
    case Rechecking(id, _) => ConsumedIdKept(g, later, id);
    case Checked(id, _, _) => ConsumedIdKept(g, later, id);
    case Running(id, _) => ConsumedIdKept(g, later, id);
    case _ =>
  }

  /** No request is about to execute a plan that was already written. */
  ghost predicate ClaimsUnwritten(g: Ledger, procs: Requests) {
    forall pid :: pid in procs && Pending(procs[pid]).Some? ==> !WrittenId(g, Pending(procs[pid]).value)
  }

  /** Requests that have nothing to do with the newly written plan do not notice the ledger growing. */
  lemma {:induction false} ProcsStaySound(cfg: Config, g: Ledger, later: Ledger, procs: Requests)
    requires Later(g, later) && ProcsSound(cfg, g, procs)
    requires later.writes == g.writes || ClaimsUnwritten(later, procs)
    ensures ProcsSound(cfg, later, procs)
  {
    forall pid | pid in procs ensures ProcSound(cfg, later, procs[pid]) {
      ProcStaysSound(cfg, g, later, procs[pid]);
    }
  }

  /** Replacing one request by a sound one that claims no plan another request claims. */
  lemma {:induction false} ProcsWith(cfg: Config, g: Ledger, procs: Requests, pid: int, proc: Proc)
    requires ProcsSound(cfg, g, procs) && ProcSound(cfg, g, proc)
    requires || Pending(proc).None?
             || (pid in procs && Pending(proc) == Pending(procs[pid]))
             || OnlyPending(g, procs, pid, Pending(proc).value)
    ensures ProcsSound(cfg, g, procs[pid := proc])
  {
    var after := procs[pid := proc];
    forall other | other in after && Pending(after[other]).Some?
      ensures OnlyPending(g, after, other, Pending(after[other]).value)
    {
    }
  }

  // ----- slots -----

  function One(b: bool): int { if b then 1 else 0 }

  lemma {:induction false} HoldersUpdated(procs: Requests, pid: int, proc: Proc)
    ensures |Holders(procs[pid := proc])| ==
            |Holders(procs)| - One(pid in procs && procs[pid].stream) + One(proc.stream)
  {
    var rest := Holders(procs) - {pid};
    assert Holders(procs[pid := proc]) == if proc.stream then rest + {pid} else rest;
    assert Holders(procs) == if pid in procs && procs[pid].stream then rest + {pid} else rest;
  }

  predicate IsAdmitted(procs: Requests, pid: int, identity: string) {
    pid in procs && procs[pid].admitted && procs[pid].identity == identity
  }

  lemma {:induction false} AdmittedUpdated(procs: Requests, pid: int, proc: Proc, identity: string)
    ensures |AdmittedAs(procs[pid := proc], identity)| ==
            |AdmittedAs(procs, identity)| - One(IsAdmitted(procs, pid, identity)) +
            One(proc.admitted && proc.identity == identity)
  {
    var rest := AdmittedAs(procs, identity) - {pid};
    assert AdmittedAs(procs[pid := proc], identity) ==
           if proc.admitted && proc.identity == identity then rest + {pid} else rest;
    assert AdmittedAs(procs, identity) == if IsAdmitted(procs, pid, identity) then rest + {pid} else rest;
  }

  /** Replacing one request, with the counters moved by exactly what it acquired or released. */
  lemma {:induction false} SlotsWith(cfg: Config, streams: int, identities: Counts, procs: Requests,
                                     pid: int, proc: Proc, newStreams: int, newIdentities: Counts)
    requires SlotsCounted(cfg, streams, identities, procs)
    requires pid in procs || |procs| < cfg.concurrent
    requires newStreams == streams - One(pid in procs && procs[pid].stream) + One(proc.stream)
    requires newStreams <= StreamCapacity(cfg.concurrent)
    requires forall identity :: identity in newIdentities ==> newIdentities[identity] > 0
    requires forall identity ::
      CountOf(newIdentities, identity) ==
        CountOf(identities, identity) - One(IsAdmitted(procs, pid, identity)) +
        One(proc.admitted && proc.identity == identity)
    requires forall identity :: CountOf(newIdentities, identity) <= PerIdentity(cfg.concurrent)
    ensures SlotsCounted(cfg, newStreams, newIdentities, procs[pid := proc])
  {
    var after := procs[pid := proc];
    HoldersUpdated(procs, pid, proc);
    assert after.Keys == procs.Keys + {pid};
    assert |after| == |after.Keys| && |procs| == |procs.Keys|;
    forall identity ensures IdentityCounted(cfg, newIdentities, after, identity) {
      assert IdentityCounted(cfg, identities, procs, identity);
      AdmittedUpdated(procs, pid, proc, identity);
    }
  }

  lemma {:induction false} SlotsBounded(cfg: Config, streams: int, identities: Counts, procs: Requests)
    requires SlotsCounted(cfg, streams, identities, procs)
    ensures forall identity :: CountOf(identities, identity) <= PerIdentity(cfg.concurrent)
    ensures forall identity :: identity in identities ==> identities[identity] > 0
  {
    forall identity
      ensures CountOf(identities, identity) <= PerIdentity(cfg.concurrent)
      ensures identity in identities ==> identities[identity] > 0
    {
      assert IdentityCounted(cfg, identities, procs, identity);
    }
  }

  lemma {:induction false} SlotsKeptByPhase(cfg: Config, s: State, pid: int, phase: Phase)
    requires SlotsCounted(cfg, s.streams, s.identities, s.procs) && pid in s.procs
    ensures SlotsCounted(cfg, s.streams, s.identities, s.procs[pid := s.procs[pid].(phase := phase)])
  {
    SlotsBounded(cfg, s.streams, s.identities, s.procs);
    SlotsWith(cfg, s.streams, s.identities, s.procs, pid, s.procs[pid].(phase := phase), s.streams, s.identities);
  }

  lemma {:induction false} SlotsWithout(cfg: Config, streams: int, identities: Counts, procs: Requests, pid: int)
    requires SlotsCounted(cfg, streams, identities, procs)
    requires pid in procs && !procs[pid].stream && !procs[pid].admitted
    ensures SlotsCounted(cfg, streams, identities, procs - {pid})
  {
    var after := procs - {pid};
    assert Holders(after) == Holders(procs);
    assert after.Keys == procs.Keys - {pid};
    assert |after| == |after.Keys| && |procs| == |procs.Keys|;
    forall identity ensures IdentityCounted(cfg, identities, after, identity) {
      assert IdentityCounted(cfg, identities, procs, identity);
      assert AdmittedAs(after, identity) == AdmittedAs(procs, identity);
    }
  }

  // ----- steps that change one request's phase and nothing else -----

  lemma {:induction false} PhaseKeepsInv(cfg: Config, s: State, pid: int, phase: Phase)
    requires Inv(cfg, s) && pid in s.procs
    requires ProcSound(cfg, s.ledger, s.procs[pid].(phase := phase))
    requires var next := Pending(s.procs[pid].(phase := phase));
             next.None? || next == Pending(s.procs[pid])
    ensures Inv(cfg, Go(s, pid, phase))
  {
    SlotsKeptByPhase(cfg, s, pid, phase);
    ProcsWith(cfg, s.ledger, s.procs, pid, s.procs[pid].(phase := phase));
  }

  // ----- the cluster changing -----

  lemma {:induction false} PutKeepsVersions(api: Api, key: Key, after: Option<Json>)
    requires ApiConsistent(api) && Writable(api, key, after)
    ensures VersionsKept(api, Put(api, key, after))
    ensures ApiConsistent(Put(api, key, after))
  {
    var later := Put(api, key, after);
    if Lookup(api, key) == after && after.Some? {
      assert VersionRecorded(api, key, after.value);
    }
    forall other | other in later.objects ensures VersionRecorded(later, other, later.objects[other]) {
      if other != key {
        assert VersionRecorded(api, other, api.objects[other]);
      }
    }
  }

  lemma {:induction false} CreationsKept(cfg: Config, g: Ledger, later: Ledger)
    requires Creations(cfg, g) && later.created == g.created && VersionsKept(g.api, later.api)
    ensures Creations(cfg, later)
  {
    forall id | id in later.created ensures CreationBound(cfg, later.api, later.created[id]) {
      assert CreationBound(cfg, g.api, g.created[id]);
    }
  }

  lemma {:induction false} WritesKept(g: Ledger, later: Ledger)
    requires Writes(g) && later.writes == g.writes && g.consumed <= later.consumed
    requires forall id :: id in g.created ==> id in later.created && later.created[id] == g.created[id]
    ensures Writes(later)
  {
    forall i | 0 <= i < |later.writes| ensures WriteRecorded(later, later.writes[i]) {
      assert WriteRecorded(g, g.writes[i]);
      ConsumedIdKept(g, later, g.writes[i].id);
    }
  }

  /** Another writer, or the clock. */
  lemma {:induction false} OutsideLedgerSound(cfg: Config, g: Ledger, now: int, key: Key, after: Option<Json>)
    requires LedgerSound(cfg, g) && Writable(g.api, key, after)
    ensures LedgerSound(cfg, g.(api := Put(g.api, key, after))) && Later(g, g.(api := Put(g.api, key, after)))
    ensures LedgerSound(cfg, g.(clock := now)) && Later(g, g.(clock := now))
  {
    PutKeepsVersions(g.api, key, after);
    CreationsKept(cfg, g, g.(api := Put(g.api, key, after)));
    WritesKept(g, g.(api := Put(g.api, key, after)));
    CreationsKept(cfg, g, g.(clock := now));
    WritesKept(g, g.(clock := now));
  }

  // ----- storing a plan -----

  lemma {:induction false} PrunedLedgerSound(cfg: Config, g: Ledger, now: int, later: int)
    requires LedgerSound(cfg, g)
    ensures var pruned := g.(plans := Unexpired(g.plans, now), clock := later);
            LedgerSound(cfg, pruned) && Later(g, pruned)
  {
    var pruned := g.(plans := Unexpired(g.plans, now), clock := later);
    FewerPlansStayWithinBudget(cfg.budget, pruned.plans, g.plans);
    forall id | id in pruned.plans ensures PlanRecorded(pruned, id) {
      assert PlanRecorded(g, id);
    }
    forall i | 0 <= i < |pruned.consumed| ensures ConsumptionRecorded(pruned, pruned.consumed[i]) {
      assert ConsumptionRecorded(g, g.consumed[i]);
    }
    CreationsKept(cfg, g, pruned);
    WritesKept(g, pruned);
  }

  /** The ledger after an accepted plan is added to a pruned ledger. */
  function WithPlan(g: Ledger, id: string, plan: StoredPlan, made: Creation): Ledger {
    g.(plans := g.plans[id := plan], seenIds := g.seenIds + {id},
       compared := g.compared[id := 0], created := g.created[id := made])
  }

  lemma {:induction false} AddedPlanBooks(g: Ledger, id: string, plan: StoredPlan, made: Creation)
    requires Books(g) && Consumptions(g) && id !in g.seenIds
    requires plan ==
            StoredPlan(made.operation, made.subject, made.expiresAt, plan.size, ConfirmationHash(id, made.code), 0)
    ensures Books(WithPlan(g, id, plan, made)) && Consumptions(WithPlan(g, id, plan, made))
  {
    var later := WithPlan(g, id, plan, made);
    forall other | other in later.plans ensures PlanRecorded(later, other) {
      if other != id {
        assert PlanRecorded(g, other);
      }
    }
    forall i | 0 <= i < |later.consumed| ensures ConsumptionRecorded(later, later.consumed[i]) {
      assert ConsumptionRecorded(g, g.consumed[i]);
    }
  }

  lemma {:induction false} FreshIdIsUnknown(g: Ledger, id: string)
    requires Books(g) && id !in g.seenIds
    ensures id !in g.plans && id !in g.created
  {
    forall known | known in g.plans ensures known in g.created {
      assert PlanRecorded(g, known);
    }
  }

  lemma {:induction false} AddedPlanCreations(cfg: Config, g: Ledger, id: string, plan: StoredPlan, made: Creation)
    requires Creations(cfg, g) && CreationBound(cfg, g.api, made)
    ensures Creations(cfg, WithPlan(g, id, plan, made))
  {
    var later := WithPlan(g, id, plan, made);
    forall other | other in later.created ensures CreationBound(cfg, later.api, later.created[other]) {
      if other != id {
        assert CreationBound(cfg, g.api, g.created[other]);
      }
    }
  }

  lemma {:induction false} AddedPlanIsLater(g: Ledger, id: string, plan: StoredPlan, made: Creation)
    requires Books(g) && id !in g.seenIds
    ensures Later(g, WithPlan(g, id, plan, made))
  {
    FreshIdIsUnknown(g, id);
  }

  lemma {:induction false} AddedPlanSound(cfg: Config, g: Ledger, id: string, plan: StoredPlan, made: Creation)
    requires LedgerSound(cfg, g) && id !in g.seenIds && CreationBound(cfg, g.api, made)
    requires plan ==
            StoredPlan(made.operation, made.subject, made.expiresAt, plan.size, ConfirmationHash(id, made.code), 0)
    requires plan.size > 0 && Fits(cfg.budget, g.plans, plan.subject, plan.size)
    ensures LedgerSound(cfg, WithPlan(g, id, plan, made)) && Later(g, WithPlan(g, id, plan, made))
  {
    AddedPlanBooks(g, id, plan, made);
    FreshIdIsUnknown(g, id);
    AdditionKeepsBudget(cfg.budget, g.plans, id, plan);
    AddedPlanCreations(cfg, g, id, plan, made);
    AddedPlanIsLater(g, id, plan, made);
    WritesKept(g, WithPlan(g, id, plan, made));
  }

  lemma {:induction false} LaterTransitive(a: Ledger, b: Ledger, c: Ledger)
    requires Later(a, b) && Later(b, c)
    ensures Later(a, c)
  {
  }

  lemma {:induction false} StoreLedgerSound(cfg: Config, g: Ledger, phase: Phase, id: string, code: string,
                                            encodedBytes: nat, later: int)
    requires LedgerSound(cfg, g) && phase.Previewed? && id !in g.seenIds && encodedBytes > 0
    requires Bound(g.api, phase.op, phase.observed)
    requires PreviewOf(cfg, phase.op, phase.observed, phase.preview, phase.dry)
    ensures LedgerSound(cfg, StoreLedger(cfg, g, phase, id, code, encodedBytes, later))
    ensures Later(g, StoreLedger(cfg, g, phase, id, code, encodedBytes, later))
  {
    var size := encodedBytes * SIZE_SAFETY_FACTOR;
    var pruned := g.(plans := Unexpired(g.plans, g.clock), clock := later);
    PrunedLedgerSound(cfg, g, g.clock, later);
    if Fits(cfg.budget, pruned.plans, phase.subject, size) {
      var plan := NewPlan(id, code, phase.subject, phase.op, size, later);
      var made := Creation(phase.op, phase.subject, code, plan.expiresAt, phase.observed, phase.preview, phase.dry);
      AddedPlanSound(cfg, pruned, id, plan, made);
      LaterTransitive(g, pruned, WithPlan(pruned, id, plan, made));
      assert StoreLedger(cfg, g, phase, id, code, encodedBytes, later) == WithPlan(pruned, id, plan, made);
    } else {
      assert StoreLedger(cfg, g, phase, id, code, encodedBytes, later) == pruned;
    }
  }

  // ----- confirming a plan -----

  lemma {:induction false} ConfirmFrame(g: Ledger, phase: Phase)
    requires phase.Confirming?
    ensures var later := ConfirmLedger(g, phase);
            && later == g.(plans := later.plans, compared := later.compared, consumed := later.consumed)
            && later.plans == ConsumePlan(g.plans, phase.id, phase.subject, phase.code, g.clock).0
            && g.consumed <= later.consumed
  {
  }

  lemma {:induction false} ConsumeKeepsPlans(plans: Plans, id: string, subject: string, code: string, now: int)
    ensures forall other :: other in ConsumePlan(plans, id, subject, code, now).0 ==>
              other in plans && ConsumePlan(plans, id, subject, code, now).0[other] ==
                (if other == id && ConsumePlan(plans, id, subject, code, now).0 != plans
                 then plans[id].(failures := plans[id].failures + 1) else plans[other])
  {
  }

  lemma {:induction false} ConfirmIsLater(g: Ledger, phase: Phase)
    requires phase.Confirming?
    ensures Later(g, ConfirmLedger(g, phase))
  {
    ConfirmFrame(g, phase);
    ConsumeKeepsPlans(g.plans, phase.id, phase.subject, phase.code, g.clock);
  }

  /** What one call of Consume does to the bookkeeping of the plan it names. */
  lemma {:induction false} ConfirmBooks(g: Ledger, phase: Phase)
    requires Books(g) && phase.Confirming?
    ensures Books(ConfirmLedger(g, phase))
  {
    var id := phase.id;
    var later := ConfirmLedger(g, phase);
    if id in g.plans {
      assert PlanRecorded(g, id);
    }
    forall other | other in later.plans ensures PlanRecorded(later, other) {
      assert PlanRecorded(g, other);
    }
  }

  lemma {:induction false} ConfirmConsumptions(g: Ledger, phase: Phase)
    requires Books(g) && Consumptions(g) && phase.Confirming?
    ensures Consumptions(ConfirmLedger(g, phase))
  {
    var Confirming(subject, id, code) := phase;
    var later := ConfirmLedger(g, phase);
    forall i | 0 <= i < |g.consumed| ensures ConsumptionRecorded(later, g.consumed[i]) {
      assert ConsumptionRecorded(g, g.consumed[i]);
    }
    if ConsumePlan(g.plans, id, subject, code, g.clock).1.Consumed? {
      assert PlanRecorded(g, id);
      HashBindsCode(id, code, g.created[id].code);
      assert ConsumptionRecorded(later, later.consumed[|g.consumed|]);
      forall i | 0 <= i < |g.consumed| ensures g.consumed[i].id != id {
        assert ConsumptionRecorded(g, g.consumed[i]);
      }
    }
  }

  lemma {:induction false} ConfirmLedgerSound(cfg: Config, g: Ledger, phase: Phase)
    requires LedgerSound(cfg, g) && phase.Confirming?
    ensures LedgerSound(cfg, ConfirmLedger(g, phase)) && Later(g, ConfirmLedger(g, phase))
    ensures ConfirmLedger(g, phase).writes == g.writes
  {
    ConfirmFrame(g, phase);
    ConfirmIsLater(g, phase);
    ConfirmBooks(g, phase);
    ConfirmConsumptions(g, phase);
    ConsumeKeepsBudget(cfg.budget, g.plans, phase.id, phase.subject, phase.code, g.clock);
    CreationsKept(cfg, g, ConfirmLedger(g, phase));
    WritesKept(g, ConfirmLedger(g, phase));
  }

  lemma {:induction false} StoredPlanIsNotConsumed(g: Ledger, id: string)
    requires Consumptions(g) && id in g.plans
    ensures !ConsumedId(g, id)
  {
    forall i | 0 <= i < |g.consumed| ensures g.consumed[i].id != id {
      assert ConsumptionRecorded(g, g.consumed[i]);
    }
  }

  /** A plan still in the store has neither been executed nor claimed by any request. */
  lemma {:induction false} StoredPlanIsUnclaimed(cfg: Config, g: Ledger, procs: Requests, pid: int, id: string)
    requires LedgerSound(cfg, g) && ProcsSound(cfg, g, procs) && id in g.plans
    ensures OnlyPending(g, procs, pid, id)
  {
    StoredPlanIsNotConsumed(g, id);
    forall i | 0 <= i < |g.writes| ensures g.writes[i].id != id {
      assert WriteRecorded(g, g.writes[i]);
    }
    forall other | other in procs && other != pid ensures Pending(procs[other]) != Some(id) {
      assert ProcSound(cfg, g, procs[other]);
    }
  }

  // ----- executing a plan -----

  /** Whatever happened since the object was read, the server accepts a bound operation only on the very
      object it was bound to. */
  lemma {:induction false} AcceptedOnlyOnObserved(cfg: Config, api: Api, op: Operation, observed: Option<Json>)
    requires ApiConsistent(api)
    requires Bound(api, op, observed) && !Attempt(cfg, api, op).Rejected?
    ensures Lookup(api, KeyOf(op)) == observed
    ensures RequestFor(op).Some? && Attempt(cfg, api, op) ==
            Judge(cfg.server, KeyOf(op), observed, RequestFor(op).value)
  {
    var current := Lookup(api, KeyOf(op));
    AcceptedOnlyAtPlannedVersion(cfg.server, op, observed, current);
    if current.Some? {
      assert VersionRecorded(api, KeyOf(op), current.value);
    }
  }

  lemma {:induction false} WriteAppended(g: Ledger, later: Ledger, w: Write)
    requires Writes(g) && WriteRecorded(g, w) && !WrittenId(g, w.id)
    requires later.writes == g.writes + [w] && later.created == g.created && later.consumed == g.consumed
    ensures Writes(later)
  {
    forall i | 0 <= i < |later.writes| ensures WriteRecorded(later, later.writes[i]) {
      if i < |g.writes| {
        assert WriteRecorded(g, g.writes[i]);
      }
      ConsumedIdKept(g, later, later.writes[i].id);
    }
  }

  lemma {:induction false} UntouchedBooks(g: Ledger, later: Ledger)
    requires Books(g) && Consumptions(g)
    requires later.plans == g.plans && later.created == g.created && later.compared == g.compared
    requires g.seenIds <= later.seenIds && later.consumed == g.consumed
    ensures Books(later) && Consumptions(later)
  {
    forall id | id in later.plans ensures PlanRecorded(later, id) {
      assert PlanRecorded(g, id);
    }
    forall i | 0 <= i < |later.consumed| ensures ConsumptionRecorded(later, later.consumed[i]) {
      assert ConsumptionRecorded(g, g.consumed[i]);
    }
  }

  /** The ledger with one more write, applied to the cluster. */
  function WithWrite(g: Ledger, w: Write): Ledger {
    g.(api := Put(g.api, w.key, w.after), writes := g.writes + [w])
  }

  lemma {:induction false} WithWriteSound(cfg: Config, g: Ledger, w: Write)
    requires LedgerSound(cfg, g) && WriteRecorded(g, w) && !WrittenId(g, w.id)
    requires Writable(g.api, w.key, w.after) && w.after == cfg.server.persist(w.before, w.verdict, w.stamp)
    ensures LedgerSound(cfg, WithWrite(g, w)) && Later(g, WithWrite(g, w))
  {
    var later := WithWrite(g, w);
    WithWriteIsLater(g, w);
    WriteAppended(g, later, w);
    CreationsKept(cfg, g, later);
    UntouchedBooks(g, later);
    JudgedAppended(cfg, g.writes, w);
  }

  lemma {:induction false} WithWriteIsLater(g: Ledger, w: Write)
    requires ApiConsistent(g.api) && Writable(g.api, w.key, w.after)
    ensures ApiConsistent(WithWrite(g, w).api) && Later(g, WithWrite(g, w))
  {
    PutKeepsVersions(g.api, w.key, w.after);
  }

  lemma {:induction false} JudgedAppended(cfg: Config, writes: seq<Write>, w: Write)
    requires StoredAsJudged(cfg, writes) && w.after == cfg.server.persist(w.before, w.verdict, w.stamp)
    ensures StoredAsJudged(cfg, writes + [w])
  {
  }

  lemma {:induction false} ExecutedWrite(cfg: Config, g: Ledger, phase: Phase, stamp: string) returns (w: Write)
    requires LedgerSound(cfg, g)
    requires phase.Checked? && WorkRecorded(g, phase.id, phase.op, true) && Accepted(cfg, g.api, phase.op)
    ensures ExecuteLedger(cfg, g, phase, stamp) == WithWrite(g, w) && WriteRecorded(g, w)
    ensures w.id == phase.id && w.key == KeyOf(phase.op) && w.after == Persisted(cfg, g.api, phase.op, stamp)
    ensures w.after == cfg.server.persist(w.before, w.verdict, w.stamp)
  {
    var key := KeyOf(phase.op);
    w := Write(phase.id, key, Lookup(g.api, key), Attempt(cfg, g.api, phase.op), stamp,
               Persisted(cfg, g.api, phase.op, stamp));
    assert CreationBound(cfg, g.api, g.created[phase.id]);
    AcceptedOnlyOnObserved(cfg, g.api, phase.op, g.created[phase.id].observed);
  }

  lemma {:induction false} ExecuteLedgerSound(cfg: Config, g: Ledger, phase: Phase, stamp: string)
    requires LedgerSound(cfg, g)
    requires phase.Checked? && WorkRecorded(g, phase.id, phase.op, true) && !WrittenId(g, phase.id)
    requires Persistable(cfg, g.api, phase.op, stamp)
    ensures LedgerSound(cfg, ExecuteLedger(cfg, g, phase, stamp)) && Later(g, ExecuteLedger(cfg, g, phase, stamp))
  {
    if Accepted(cfg, g.api, phase.op) {
      var w := ExecutedWrite(cfg, g, phase, stamp);
      WithWriteSound(cfg, g, w);
    }
  }

  // ----- every step -----

  lemma {:induction false} LedgerKeepsInv(cfg: Config, s: State, later: Ledger)
    requires Inv(cfg, s) && LedgerSound(cfg, later) && Later(s.ledger, later)
    requires later.writes == s.ledger.writes
    ensures Inv(cfg, s.(ledger := later))
  {
    ProcsStaySound(cfg, s.ledger, later, s.procs);
  }

  lemma {:induction false} TickKeepsInv(cfg: Config, s: State, now: int)
    requires Inv(cfg, s) && Enabled(cfg, s, Tick(now))
    ensures Inv(cfg, Next(cfg, s, Tick(now)))
  {
    OutsideLedgerSound(cfg, s.ledger, now, Key("", "", ""), None);
    LedgerKeepsInv(cfg, s, s.ledger.(clock := now));
  }

  lemma {:induction false} OutsideKeepsInv(cfg: Config, s: State, key: Key, after: Option<Json>)
    requires Inv(cfg, s) && Enabled(cfg, s, Outside(key, after))
    ensures Inv(cfg, Next(cfg, s, Outside(key, after)))
  {
    OutsideLedgerSound(cfg, s.ledger, 0, key, after);
    LedgerKeepsInv(cfg, s, s.ledger.(api := Put(s.ledger.api, key, after)));
  }

  lemma {:induction false} EnterKeepsInv(cfg: Config, s: State, pid: int, identity: string)
    requires Inv(cfg, s) && Enabled(cfg, s, Enter(pid, identity))
    ensures Inv(cfg, Next(cfg, s, Enter(pid, identity)))
  {
    var proc := Proc(identity, false, false, Authenticating);
    SlotsBounded(cfg, s.streams, s.identities, s.procs);
    SlotsWith(cfg, s.streams, s.identities, s.procs, pid, proc, s.streams, s.identities);
    ProcsWith(cfg, s.ledger, s.procs, pid, proc);
  }

  lemma {:induction false} MentionKeepsLedger(cfg: Config, g: Ledger, ids: set<string>)
    requires LedgerSound(cfg, g)
    ensures LedgerSound(cfg, g.(seenIds := g.seenIds + ids)) && Later(g, g.(seenIds := g.seenIds + ids))
  {
    var later := g.(seenIds := g.seenIds + ids);
    UntouchedBooks(g, later);
    CreationsKept(cfg, g, later);
    WritesKept(g, later);
  }

  lemma {:induction false} AcquireCounts(counts: Counts, identity: string, limit: nat)
    requires forall other :: CountOf(counts, other) <= limit
    requires forall other :: other in counts ==> counts[other] > 0
    requires CountOf(counts, identity) < limit
    ensures forall other :: CountOf(Acquire(counts, identity), other) <= limit
    ensures forall other :: other in Acquire(counts, identity) ==> Acquire(counts, identity)[other] > 0
    ensures forall other :: CountOf(Acquire(counts, identity), other) == CountOf(counts, other) + One(other == identity)
  {
    forall other ensures CountOf(Acquire(counts, identity), other) <= limit {
      assert CountOf(counts, other) <= limit;
    }
  }

  lemma {:induction false} ReleaseCounts(counts: Counts, identity: string, limit: nat)
    requires forall other :: CountOf(counts, other) <= limit
    requires forall other :: other in counts ==> counts[other] > 0
    requires identity in counts
    ensures forall other :: CountOf(Release(counts, identity), other) <= limit
    ensures forall other :: other in Release(counts, identity) ==> Release(counts, identity)[other] > 0
    ensures forall other :: CountOf(Release(counts, identity), other) == CountOf(counts, other) - One(other == identity)
  {
    forall other ensures CountOf(Release(counts, identity), other) <= limit {
      assert CountOf(counts, other) <= limit;
    }
  }

  lemma {:induction false} AdmitKeepsSlots(cfg: Config, s: State, pid: int, admitted: Proc)
    requires SlotsCounted(cfg, s.streams, s.identities, s.procs) && pid in s.procs
    requires !s.procs[pid].admitted && !s.procs[pid].stream && admitted.admitted && !admitted.stream
    requires admitted.identity == s.procs[pid].identity
    requires CountOf(s.identities, admitted.identity) < PerIdentity(cfg.concurrent)
    ensures SlotsCounted(cfg, s.streams, Acquire(s.identities, admitted.identity), s.procs[pid := admitted])
  {
    SlotsBounded(cfg, s.streams, s.identities, s.procs);
    AcquireCounts(s.identities, admitted.identity, PerIdentity(cfg.concurrent));
    SlotsWith(cfg, s.streams, s.identities, s.procs, pid, admitted, s.streams,
              Acquire(s.identities, admitted.identity));
  }

  lemma {:induction false} AdmitKeepsRequests(cfg: Config, s: State, pid: int, call: ToolCall)
    requires Inv(cfg, s) && Enabled(cfg, s, Admit(pid, call))
    ensures var later := s.ledger.(seenIds := s.ledger.seenIds + Mentioned(call));
            var admitted := s.procs[pid].(admitted := true, phase := StartOf(cfg, call));
            LedgerSound(cfg, later) && ProcsSound(cfg, later, s.procs[pid := admitted])
  {
    var later := s.ledger.(seenIds := s.ledger.seenIds + Mentioned(call));
    assert ProcSound(cfg, s.ledger, s.procs[pid]);
    MentionKeepsLedger(cfg, s.ledger, Mentioned(call));
    LedgerKeepsInv(cfg, s, later);
    ProcsWith(cfg, later, s.procs, pid, s.procs[pid].(admitted := true, phase := StartOf(cfg, call)));
  }

  lemma {:induction false} AdmitKeepsInv(cfg: Config, s: State, pid: int, call: ToolCall)
    requires Inv(cfg, s) && Enabled(cfg, s, Admit(pid, call))
    ensures Inv(cfg, Next(cfg, s, Admit(pid, call)))
  {
    var proc := s.procs[pid];
    if CountOf(s.identities, proc.identity) < PerIdentity(cfg.concurrent) {
      assert ProcSound(cfg, s.ledger, proc);
      AdmitKeepsSlots(cfg, s, pid, proc.(admitted := true, phase := StartOf(cfg, call)));
      AdmitKeepsRequests(cfg, s, pid, call);
    } else {
      PhaseKeepsInv(cfg, s, pid, Returning);
    }
  }

  lemma {:induction false} ObserveKeepsInv(cfg: Config, s: State, pid: int, stamp: string, container: string)
    requires Inv(cfg, s) && Enabled(cfg, s, Observe(pid, stamp, container))
    ensures Inv(cfg, Next(cfg, s, Observe(pid, stamp, container)))
  {
    var api, op := s.ledger.api, s.procs[pid].phase.op;
    var current := Lookup(api, KeyOf(Named(op)));
    assert ProcSound(cfg, s.ledger, s.procs[pid]);
    if Capture(op, current, stamp, container).Some? {
      CaptureBinds(op, current, stamp, container);
      if current.Some? {
        assert VersionRecorded(api, KeyOf(Named(op)), current.value);
      }
      assert Bound(api, Capture(op, current, stamp, container).value, current);
    }
    PhaseKeepsInv(cfg, s, pid, ObservePhase(api, s.procs[pid].phase, stamp, container));
  }

  lemma {:induction false} DryRunKeepsInv(cfg: Config, s: State, pid: int, dry: string)
    requires Inv(cfg, s) && Enabled(cfg, s, DryRun(pid, dry))
    ensures Inv(cfg, Next(cfg, s, DryRun(pid, dry)))
  {
    var api, phase := s.ledger.api, s.procs[pid].phase;
    assert ProcSound(cfg, s.ledger, s.procs[pid]);
    if !IsRemote(phase.op) && !Attempt(cfg, api, phase.op).Rejected? {
      AcceptedOnlyOnObserved(cfg, api, phase.op, phase.observed);
    }
    PhaseKeepsInv(cfg, s, pid, DryRunPhase(cfg, api, phase, dry));
  }

  lemma {:induction false} StorePlanKeepsInv(cfg: Config, s: State, pid: int, id: string, code: string,
                                             encodedBytes: nat, later: int)
    requires Inv(cfg, s) && Enabled(cfg, s, StorePlan(pid, id, code, encodedBytes, later))
    ensures Inv(cfg, Next(cfg, s, StorePlan(pid, id, code, encodedBytes, later)))
  {
    assert ProcSound(cfg, s.ledger, s.procs[pid]);
    var stored := StoreLedger(cfg, s.ledger, s.procs[pid].phase, id, code, encodedBytes, later);
    StoreLedgerSound(cfg, s.ledger, s.procs[pid].phase, id, code, encodedBytes, later);
    LedgerKeepsInv(cfg, s, stored);
    PhaseKeepsInv(cfg, s.(ledger := stored), pid, Returning);
  }

  lemma {:induction false} TakeStreamKeepsInv(cfg: Config, s: State, pid: int)
    requires Inv(cfg, s) && Enabled(cfg, s, TakeStream(pid))
    ensures Inv(cfg, Next(cfg, s, TakeStream(pid)))
  {
    var proc := s.procs[pid];
    assert ProcSound(cfg, s.ledger, proc);
    if s.streams < StreamCapacity(cfg.concurrent) {
      var streaming := TakeStreamStep(cfg, s, pid).procs[pid];
      ProcsWith(cfg, s.ledger, s.procs, pid, streaming);
      SlotsBounded(cfg, s.streams, s.identities, s.procs);
      SlotsWith(cfg, s.streams, s.identities, s.procs, pid, streaming, s.streams + 1, s.identities);
    } else {
      PhaseKeepsInv(cfg, s, pid, Returning);
    }
  }

  /** What a successful confirmation leaves in the ledger. */
  lemma {:induction false} ConfirmedPlan(g: Ledger, phase: Phase)
    requires Books(g) && phase.Confirming? && ConfirmPhase(g, phase).Rechecking?
    ensures phase.id in g.plans && phase.id in g.created
    ensures ConfirmPhase(g, phase) == Rechecking(phase.id, g.created[phase.id].operation)
    ensures IsRemote(g.created[phase.id].operation) ==> RemotePlan(g.plans, phase.id, phase.subject)
    ensures var later := ConfirmLedger(g, phase);
            later.created == g.created && later.writes == g.writes && ConsumedId(later, phase.id)
  {
    assert PlanRecorded(g, phase.id);
    assert ConfirmLedger(g, phase).consumed[|g.consumed|].id == phase.id;
  }

  /** A request that confirms its code holds the only claim on the plan, and a stream if the plan is remote. */
  lemma {:induction false} ConfirmedWork(cfg: Config, g: Ledger, procs: Requests, pid: int)
    requires LedgerSound(cfg, g) && ProcsSound(cfg, g, procs) && pid in procs && procs[pid].phase.Confirming?
    requires ConfirmPhase(g, procs[pid].phase).Rechecking?
    ensures var later := ConfirmLedger(g, procs[pid].phase);
            var proc := procs[pid].(phase := ConfirmPhase(g, procs[pid].phase));
            ProcSound(cfg, later, proc) && OnlyPending(later, procs, pid, proc.phase.id)
  {
    assert ProcSound(cfg, g, procs[pid]);
    ConfirmedPlan(g, procs[pid].phase);
    StoredPlanIsUnclaimed(cfg, g, procs, pid, procs[pid].phase.id);
  }

  lemma {:induction false} ConfirmKeepsInv(cfg: Config, s: State, pid: int)
    requires Inv(cfg, s) && Enabled(cfg, s, Confirm(pid))
    ensures Inv(cfg, Next(cfg, s, Confirm(pid)))
  {
    var before := s.procs[pid].phase;
    var later, phase := ConfirmLedger(s.ledger, before), ConfirmPhase(s.ledger, before);
    ConfirmLedgerSound(cfg, s.ledger, before);
    LedgerKeepsInv(cfg, s, later);
    SlotsKeptByPhase(cfg, s, pid, phase);
    if phase.Rechecking? {
      ConfirmedWork(cfg, s.ledger, s.procs, pid);
    }
    ProcsWith(cfg, later, s.procs, pid, s.procs[pid].(phase := phase));
  }

  /** Once its request has moved on, nobody else claims the plan just written. */
  lemma {:induction false} ExecuteClaims(cfg: Config, g: Ledger, procs: Requests, pid: int, stamp: string)
    requires ProcsSound(cfg, g, procs) && pid in procs && procs[pid].phase.Checked?
    ensures ClaimsUnwritten(ExecuteLedger(cfg, g, procs[pid].phase, stamp),
                            procs[pid := procs[pid].(phase := ExecutePhase(procs[pid].phase))])
  {
    var phase := procs[pid].phase;
    var later := ExecuteLedger(cfg, g, phase, stamp);
    assert OnlyPending(g, procs, pid, phase.id);
    forall other | other in procs && other != pid && Pending(procs[other]).Some?
      ensures !WrittenId(later, Pending(procs[other]).value)
    {
      assert OnlyPending(g, procs, other, Pending(procs[other]).value);
    }
  }

  lemma {:induction false} ExecuteKeepsRequests(cfg: Config, g: Ledger, procs: Requests, pid: int, stamp: string)
    requires ProcsSound(cfg, g, procs) && pid in procs && procs[pid].phase.Checked?
    requires Later(g, ExecuteLedger(cfg, g, procs[pid].phase, stamp))
    ensures ProcsSound(cfg, ExecuteLedger(cfg, g, procs[pid].phase, stamp),
                       procs[pid := procs[pid].(phase := ExecutePhase(procs[pid].phase))])
  {
    var moved := procs[pid].(phase := ExecutePhase(procs[pid].phase));
    ExecuteClaims(cfg, g, procs, pid, stamp);
    ProcsWith(cfg, g, procs, pid, moved);
    ProcsStaySound(cfg, g, ExecuteLedger(cfg, g, procs[pid].phase, stamp), procs[pid := moved]);
  }

  lemma {:induction false} ExecuteKeepsInv(cfg: Config, s: State, pid: int, stamp: string)
    requires Inv(cfg, s) && Enabled(cfg, s, Execute(pid, stamp))
    ensures Inv(cfg, Next(cfg, s, Execute(pid, stamp)))
  {
    var g, proc := s.ledger, s.procs[pid];
    assert ProcSound(cfg, g, proc);
    assert OnlyPending(g, s.procs, pid, proc.phase.id);
    ExecuteLedgerSound(cfg, g, proc.phase, stamp);
    SlotsKeptByPhase(cfg, s, pid, ExecutePhase(proc.phase));
    ExecuteKeepsRequests(cfg, g, s.procs, pid, stamp);
  }

  lemma {:induction false} CheckRemoteKeepsInv(cfg: Config, s: State, pid: int)
    requires Inv(cfg, s) && Enabled(cfg, s, CheckRemote(pid))
    ensures Inv(cfg, Next(cfg, s, CheckRemote(pid)))
  {
    assert ProcSound(cfg, s.ledger, s.procs[pid]);
    PhaseKeepsInv(cfg, s, pid, CheckRemotePhase(s.ledger.plans, s.procs[pid].phase));
  }

  lemma {:induction false} RecheckKeepsInv(cfg: Config, s: State, pid: int)
    requires Inv(cfg, s) && Enabled(cfg, s, Recheck(pid))
    ensures Inv(cfg, Next(cfg, s, Recheck(pid)))
  {
    assert ProcSound(cfg, s.ledger, s.procs[pid]);
    PhaseKeepsInv(cfg, s, pid, RecheckPhase(cfg, s.ledger.api, s.procs[pid].phase));
  }

  lemma {:induction false} RevalidateKeepsInv(cfg: Config, s: State, pid: int, stamp: string, container: string,
                                              dry: string)
    requires Inv(cfg, s) && Enabled(cfg, s, Revalidate(pid, stamp, container, dry))
    ensures Inv(cfg, Next(cfg, s, Revalidate(pid, stamp, container, dry)))
  {
    assert ProcSound(cfg, s.ledger, s.procs[pid]);
    PhaseKeepsInv(cfg, s, pid, RevalidatePhase(cfg, s.ledger.api, s.procs[pid].phase, stamp, container, dry));
  }

  lemma {:induction false} ReturnKeepsInv(cfg: Config, s: State, pid: int)
    requires Inv(cfg, s) && Enabled(cfg, s, Return(pid))
    ensures Inv(cfg, Next(cfg, s, Return(pid)))
  {
    PhaseKeepsInv(cfg, s, pid, Returning);
  }

  lemma {:induction false} UnwindKeepsInv(cfg: Config, s: State, pid: int)
    requires Inv(cfg, s) && Enabled(cfg, s, Unwind(pid))
    ensures Inv(cfg, Next(cfg, s, Unwind(pid)))
  {
    var proc := s.procs[pid];
    SlotsBounded(cfg, s.streams, s.identities, s.procs);
    if proc.stream {
      ProcsWith(cfg, s.ledger, s.procs, pid, proc.(stream := false));
      SlotsWith(cfg, s.streams, s.identities, s.procs, pid, proc.(stream := false), s.streams - 1, s.identities);
    } else if proc.admitted {
      ProcsWith(cfg, s.ledger, s.procs, pid, proc.(admitted := false));
      assert IdentityCounted(cfg, s.identities, s.procs, proc.identity);
      assert pid in AdmittedAs(s.procs, proc.identity);
      ReleaseCounts(s.identities, proc.identity, PerIdentity(cfg.concurrent));
      SlotsWith(cfg, s.streams, s.identities, s.procs, pid, proc.(admitted := false), s.streams,
                Release(s.identities, proc.identity));
    } else {
      SlotsWithout(cfg, s.streams, s.identities, s.procs, pid);
    }
  }

  lemma {:induction false} StepKeepsInv(cfg: Config, s: State, l: Label)
    requires Inv(cfg, s) && Enabled(cfg, s, l)
    ensures Inv(cfg, Next(cfg, s, l))
  {
    match l
    case Tick(now) => TickKeepsInv(cfg, s, now);
    case Outside(key, after) => OutsideKeepsInv(cfg, s, key, after);
    case Enter(pid, identity) => EnterKeepsInv(cfg, s, pid, identity);
    case Admit(pid, call) => AdmitKeepsInv(cfg, s, pid, call);
    case Observe(pid, stamp, container) => ObserveKeepsInv(cfg, s, pid, stamp, container);
    case DryRun(pid, dry) => DryRunKeepsInv(cfg, s, pid, dry);
    case StorePlan(pid, id, code, encodedBytes, later) => StorePlanKeepsInv(cfg, s, pid, id, code, encodedBytes, later);
    case CheckRemote(pid) => CheckRemoteKeepsInv(cfg, s, pid);
    case TakeStream(pid) => TakeStreamKeepsInv(cfg, s, pid);
    case Confirm(pid) => ConfirmKeepsInv(cfg, s, pid);
    case Recheck(pid) => RecheckKeepsInv(cfg, s, pid);
    case Revalidate(pid, stamp, container, dry) => RevalidateKeepsInv(cfg, s, pid, stamp, container, dry);
    case Execute(pid, stamp) => ExecuteKeepsInv(cfg, s, pid, stamp);
    case Return(pid) => ReturnKeepsInv(cfg, s, pid);
    case Unwind(pid) => UnwindKeepsInv(cfg, s, pid);
  }
}
