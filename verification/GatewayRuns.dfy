/** What holds of every run of the gateway, from an empty gateway in front of an arbitrary cluster. */
module GatewayRuns {
  import opened JsonValues
  import opened Operations
  import opened Patches
  import opened Execution
  import opened PlannedChanges
  import opened PlanStores
  import opened Admission
  import opened Gateway
  import opened GatewaySafety
  import SafeWrite

  lemma {:induction false} InitialInv(cfg: Config, s: State)
    requires Initial(s)
    ensures Inv(cfg, s)
  {
    forall subject ensures SubjectWithinBudget(cfg.budget, s.ledger.plans, subject) {
      assert OfSubject(map[], subject) == map[];
    }
    forall identity ensures IdentityCounted(cfg, s.identities, s.procs, identity) {
      assert AdmittedAs(map[], identity) == {};
    }
    assert Holders(map[]) == {};
  }

  lemma {:induction false} RunKeepsInv(cfg: Config, s: State, labels: seq<Label>)
    requires Inv(cfg, s) && ValidRun(cfg, s, labels)
    ensures Inv(cfg, Run(cfg, s, labels))
    decreases |labels|
  {
    if labels != [] {
      StepKeepsInv(cfg, s, labels[0]);
      RunKeepsInv(cfg, Next(cfg, s, labels[0]), labels[1..]);
    }
  }

  lemma {:induction false} ReachableInv(cfg: Config, s: State, labels: seq<Label>)
    requires Initial(s) && ValidRun(cfg, s, labels)
    ensures Inv(cfg, Run(cfg, s, labels))
  {
    InitialInv(cfg, s);
    RunKeepsInv(cfg, s, labels);
  }

  // ----- optimistic concurrency -----

  /** Every write a commit ever persists replaces exactly the object its plan observed: a create found the name
      still absent, everything else found the planned version, untouched and not operator-managed.  The server's
      verdict is the one the plan previewed, the object left behind is what the server makes of that verdict on that
      object, and no plan writes twice. */
  lemma {:induction false} PersistedWritesAreAsPlanned(cfg: Config, s: State, labels: seq<Label>)
    requires Initial(s) && ValidRun(cfg, s, labels)
    ensures var g := Run(cfg, s, labels).ledger;
            && (forall i :: 0 <= i < |g.writes| ==>
                  var w := g.writes[i];
                  && w.id in g.created
                  && var made := g.created[w.id];
                     && w.key == KeyOf(made.operation)
                     && w.before == made.observed
                     && made.preview == Some(w.verdict)
                     && w.after == cfg.server.persist(made.observed, w.verdict, w.stamp)
                     && WriteAsPlanned(cfg.server, made.operation, w))
            && (forall i, j :: 0 <= i < j < |g.writes| ==> g.writes[i].id != g.writes[j].id)
  {
    ReachableInv(cfg, s, labels);
    var g := Run(cfg, s, labels).ledger;
    forall i | 0 <= i < |g.writes|
      ensures WriteRecorded(g, g.writes[i])
      ensures WriteAsPlanned(cfg.server, g.created[g.writes[i].id].operation, g.writes[i])
    {
      assert WriteRecorded(g, g.writes[i]);
      RecordedWriteIsAsPlanned(cfg, g, g.writes[i]);
    }
  }

  /** The verdict is what the planned operation asks for, and a create found nothing while everything else found the
      planned version of the planned object, which the operator does not manage. */
  ghost predicate WriteAsPlanned(server: Server, op: Operation, w: Write) {
    && w.key == Key(op.resource, if op.namespaced then op.namespace else "", op.name)
    && AsAsked(server, op, "", w.before, w.verdict)
    && if op.action.Create? then w.before.None? else w.before.Some? && IsPlannedTarget(op, w.before.value)
  }

  predicate IsPlannedTarget(op: Operation, before: Json) {
    && TextAt(before, ["metadata", "resourceVersion"]) == op.resourceVersion != ""
    && TextAt(before, ["metadata", "uid"]) == op.targetUID
    && ValueAt(before, ["metadata", "labels", "app.kubernetes.io/managed-by"]) != Some(String("supek8smcp-operator"))
  }

  lemma {:induction false} BoundTargetIsPlanned(op: Operation, before: Json)
    requires BoundTo(op, Some(before)) && !op.action.Create? && op.resourceVersion != ""
    ensures IsPlannedTarget(op, before)
  {
    MetadataTextIsAt(before, "resourceVersion");
    MetadataTextIsAt(before, "uid");
    MetadataTextIsAt(before, "labels");
    var keys := ["metadata", "labels", "app.kubernetes.io/managed-by"];
    assert keys[1..] == ["labels", "app.kubernetes.io/managed-by"];
    assert keys[1..][1..] == ["app.kubernetes.io/managed-by"] && keys[1..][1..][1..] == [];
    assert ValueAt(Metadata(before), ["labels"]) == FieldOf(Metadata(before), "labels");
  }

  lemma {:induction false} RecordedWriteIsAsPlanned(cfg: Config, g: Ledger, w: Write)
    requires WriteRecorded(g, w) && CreationBound(cfg, g.api, g.created[w.id])
    ensures WriteAsPlanned(cfg.server, g.created[w.id].operation, w)
    ensures w.before.Some? ==> VersionOf(w.before.value) != ""
  {
    var op := g.created[w.id].operation;
    JudgedAsAsked(cfg.server, op, w.before, w.verdict);
    if !op.action.Create? {
      BoundTargetIsPlanned(op, w.before.value);
    }
  }

  // ----- SafeWrite over whole runs -----

  /** Two carryings-out of one verdict: objects that agree on every field but metadata. */
  predicate SameButMetadata(one: Option<Json>, other: Option<Json>) {
    if one.None? then other.None?
    else
      && other.Some? && one.value.Object? && other.value.Object?
      && one.value.fields - {"metadata"} == other.value.fields - {"metadata"}
  }

  /** New versions, times and the like show in metadata alone. */
  ghost predicate StampsMetadata(server: Server) {
    forall before, verdict, one, other ::
      SameButMetadata(server.persist(before, verdict, one), server.persist(before, verdict, other))
  }

  /** What the walker says of an object does not depend on metadata, if the old metadata makes no claim. */
  lemma {:induction false} MetadataDoesNotMatter(cfg: Config, before: Json, after: Json, other: Json)
    requires SafeWrite.Accepts(cfg.casing, cfg.position, before, after, "")
    requires SameButMetadata(Some(after), Some(other))
    requires SafeWrite.ClaimFree(cfg.casing, cfg.position, Metadata(before), "metadata")
    ensures SafeWrite.Accepts(cfg.casing, cfg.position, before, other, "")
  {
    if before.Object? {
      forall key | key in before.fields
        ensures SafeWrite.FieldPasses(cfg.casing, cfg.position, before.fields, other, "", key)
      {
        if key == "metadata" {
          assert !SafeWrite.InSpec("") && SafeWrite.ChildPath("", key) == "metadata";
          SafeWrite.ClaimFreeIsAccepted(cfg.casing, cfg.position, before.fields[key],
                                        SafeWrite.FieldOrNull(other, key), "metadata");
        } else {
          assert key in (after.fields - {"metadata"}) <==> key in (other.fields - {"metadata"});
          assert SafeWrite.FieldPasses(cfg.casing, cfg.position, before.fields, after, "", key);
        }
      }
      SafeWrite.FieldsDecide(cfg.casing, cfg.position, before.fields, other, "");
    } else {
      assert SafeWrite.Items(other) == [];
    }
  }

  /** The object a write found and the server's dry-run answer on it are an accepted transition; so are the object
      found and the object left, when what the server stamps is metadata that makes no claim. */
  ghost predicate WriteIsSafe(cfg: Config, w: Write, dry: string) {
    && w.before.Some?
    && var answer := cfg.server.persist(w.before, w.verdict, dry);
       && answer.Some?
       && SafeWrite.Accepts(cfg.casing, cfg.position, w.before.value, answer.value, "")
       && (&& StampsMetadata(cfg.server)
           && SafeWrite.ClaimFree(cfg.casing, cfg.position, Metadata(w.before.value), "metadata") ==>
             w.after.Some? && SafeWrite.Accepts(cfg.casing, cfg.position, w.before.value, w.after.value, ""))
  }

  /** In SafeWrite mode every apply, patch, restart and update that is ever persisted is an accepted transition from the
      object it found, whatever other writers did between plan and commit. */
  lemma {:induction false} SafeWritesAreAcceptedTransitions(cfg: Config, s: State, labels: seq<Label>)
    requires Initial(s) && ValidRun(cfg, s, labels) && cfg.safeWrite
    ensures var g := Run(cfg, s, labels).ledger;
            forall i :: 0 <= i < |g.writes| ==>
              var w := g.writes[i];
              && w.id in g.created
              && (g.created[w.id].operation.action in {Apply, Patch, Restart, Update} ==>
                    WriteIsSafe(cfg, w, g.created[w.id].dry))
  {
    ReachableInv(cfg, s, labels);
    var g := Run(cfg, s, labels).ledger;
    forall i | 0 <= i < |g.writes|
      ensures WriteRecorded(g, g.writes[i])
      ensures IsTransition(g.created[g.writes[i].id].operation) ==>
                WriteIsSafe(cfg, g.writes[i], g.created[g.writes[i].id].dry)
    {
      assert WriteRecorded(g, g.writes[i]);
      if IsTransition(g.created[g.writes[i].id].operation) {
        RecordedWriteIsSafe(cfg, g, g.writes[i]);
      }
    }
  }

  lemma {:induction false} RecordedWriteIsSafe(cfg: Config, g: Ledger, w: Write)
    requires WriteRecorded(g, w) && CreationBound(cfg, g.api, g.created[w.id])
    requires cfg.safeWrite && IsTransition(g.created[w.id].operation)
    requires w.after == cfg.server.persist(w.before, w.verdict, w.stamp)
    ensures WriteIsSafe(cfg, w, g.created[w.id].dry)
  {
    var answer := cfg.server.persist(w.before, w.verdict, g.created[w.id].dry);
    var metadata := Metadata(w.before.value);
    if StampsMetadata(cfg.server) && SafeWrite.ClaimFree(cfg.casing, cfg.position, metadata, "metadata") {
      assert SameButMetadata(answer, w.after);
      MetadataDoesNotMatter(cfg, w.before.value, answer.value, w.after.value);
    }
  }

  // ----- nothing else writes -----

  /** Apart from other writers, only an accepted execution touches the cluster, and it is recorded. */
  lemma {:induction false} NothingElseWrites(cfg: Config, s: State, l: Label)
    requires Enabled(cfg, s, l) && !l.Outside?
    ensures var g, later := s.ledger, Next(cfg, s, l).ledger;
            if later.writes == g.writes then later.api == g.api
            else
              && l.Execute? && |later.writes| == |g.writes| + 1 && g.writes <= later.writes
              && var w := later.writes[|g.writes|];
                 && w.before == Lookup(g.api, w.key) && w.after == Lookup(later.api, w.key)
                 && forall key :: key != w.key ==> Lookup(later.api, key) == Lookup(g.api, key)
  {
    var g, later := s.ledger, Next(cfg, s, l).ledger;
    if l.Execute? && later != g {
      assert later.writes == g.writes + [later.writes[|g.writes|]];
    }
  }

  // ----- one-time plans -----

  /** Each plan is consumed at most once, only by its creator, in time and with its own code, and yields the
      operation it was created with; at most five well-formed codes are ever compared against it. */
  lemma {:induction false} PlansAreOneTime(cfg: Config, s: State, labels: seq<Label>)
    requires Initial(s) && ValidRun(cfg, s, labels)
    ensures var g := Run(cfg, s, labels).ledger;
            && (forall i :: 0 <= i < |g.consumed| ==>
                  var c := g.consumed[i];
                  && c.id in g.created
                  && var made := g.created[c.id];
                     && c.subject == made.subject && c.code == made.code && c.operation == made.operation
                     && c.at <= made.expiresAt)
            && (forall i, j :: 0 <= i < j < |g.consumed| ==> g.consumed[i].id != g.consumed[j].id)
            && (forall id :: id in g.created ==> id in g.compared && g.compared[id] <= 5)
            && WithinBudget(cfg.budget, g.plans)
  {
    ReachableInv(cfg, s, labels);
    var g := Run(cfg, s, labels).ledger;
    forall i | 0 <= i < |g.consumed| ensures ConsumptionRecorded(g, g.consumed[i]) {}
  }

  lemma {:induction false} LaterReflexive(g: Ledger)
    ensures Later(g, g)
  {
  }

  lemma {:induction false} AdmitIsLater(cfg: Config, g: Ledger, s: State, pid: int, call: ToolCall)
    requires LedgerSound(cfg, g) && s.ledger == g && pid in s.procs
    ensures Later(g, AdmitStep(cfg, s, pid, call).ledger)
  {
    MentionKeepsLedger(cfg, g, Mentioned(call));
  }

  lemma {:induction false} StoreIsLater(cfg: Config, s: State, l: Label)
    requires Inv(cfg, s) && l.StorePlan? && Enabled(cfg, s, l)
    ensures Later(s.ledger, StoreLedger(cfg, s.ledger, s.procs[l.pid].phase, l.id, l.code, l.encodedBytes, l.later))
  {
    assert ProcSound(cfg, s.ledger, s.procs[l.pid]);
    StoreLedgerSound(cfg, s.ledger, s.procs[l.pid].phase, l.id, l.code, l.encodedBytes, l.later);
  }

  lemma {:induction false} ExecuteIsLater(cfg: Config, g: Ledger, phase: Phase, stamp: string)
    requires ApiConsistent(g.api) && phase.Checked? && Persistable(cfg, g.api, phase.op, stamp)
    ensures Later(g, ExecuteLedger(cfg, g, phase, stamp))
  {
    if Accepted(cfg, g.api, phase.op) {
      PutKeepsVersions(g.api, KeyOf(phase.op), Persisted(cfg, g.api, phase.op, stamp));
    }
  }

  lemma {:induction false} StepIsLater(cfg: Config, s: State, l: Label)
    requires Inv(cfg, s) && Enabled(cfg, s, l)
    ensures Later(s.ledger, Next(cfg, s, l).ledger)
  {
    var g := s.ledger;
    if l.Tick? {
      OutsideLedgerSound(cfg, g, l.now, Key("", "", ""), None);
    } else if l.Outside? {
      OutsideLedgerSound(cfg, g, 0, l.key, l.after);
    } else if l.Admit? {
      AdmitIsLater(cfg, g, s, l.pid, l.call);
    } else if l.StorePlan? {
      StoreIsLater(cfg, s, l);
    } else if l.Confirm? {
      ConfirmIsLater(g, s.procs[l.pid].phase);
    } else if l.Execute? {
      ExecuteIsLater(cfg, g, s.procs[l.pid].phase, l.stamp);
    } else {
      assert Next(cfg, s, l).ledger == g;
      LaterReflexive(g);
    }
  }

  lemma {:induction false} RunIsLater(cfg: Config, s: State, labels: seq<Label>)
    requires Inv(cfg, s) && ValidRun(cfg, s, labels)
    ensures Later(s.ledger, Run(cfg, s, labels).ledger)
    decreases |labels|
  {
    if labels != [] {
      var next := Next(cfg, s, labels[0]);
      StepIsLater(cfg, s, labels[0]);
      StepKeepsInv(cfg, s, labels[0]);
      RunIsLater(cfg, next, labels[1..]);
      LaterTransitive(s.ledger, next.ledger, Run(cfg, s, labels).ledger);
    }
  }

  /** However the run continues, a plan that has left the store never returns, and a plan still there is the
      same plan for the same subject. */
  lemma {:induction false} PlansNeverReturn(cfg: Config, s: State, before: seq<Label>, after: seq<Label>, id: string)
    requires Initial(s) && ValidRun(cfg, s, before)
    requires ValidRun(cfg, Run(cfg, s, before), after)
    requires id in Run(cfg, s, before).ledger.created
    ensures var g, later := Run(cfg, s, before).ledger, Run(cfg, Run(cfg, s, before), after).ledger;
            id in later.plans ==>
              && id in g.plans
              && later.plans[id].operation == g.plans[id].operation == g.created[id].operation
              && later.plans[id].subject == g.plans[id].subject == g.created[id].subject
  {
    ReachableInv(cfg, s, before);
    RunIsLater(cfg, Run(cfg, s, before), after);
    var g := Run(cfg, s, before).ledger;
    if id in g.plans {
      assert PlanRecorded(g, id);
    }
  }

  // ----- plans stay until they are done -----

  /** Why a plan is no longer stored: it was consumed, its time is over, or five wrong codes were compared with it. */
  ghost predicate Done(g: Ledger, id: string)
    requires id in g.created
  {
    ConsumedId(g, id) || g.clock > g.created[id].expiresAt || ComparedTimes(g, id) == 5
  }

  ghost predicate Departures(g: Ledger) {
    forall id :: id in g.created && id !in g.plans ==> Done(g, id)
  }

  lemma {:induction false} SameDepartures(g: Ledger, later: Ledger)
    requires Departures(g) && later.plans == g.plans && later.created == g.created && later.consumed == g.consumed
    requires later.compared == g.compared && g.clock <= later.clock
    ensures Departures(later)
  {
    forall id | id in later.created && id !in later.plans ensures Done(later, id) {
      assert Done(g, id);
    }
  }

  /** Storing a plan prunes expired plans and no others. */
  lemma {:induction false} StoreDepartures(cfg: Config, g: Ledger, phase: Phase, id: string, code: string,
                                           encodedBytes: nat, later: int)
    requires Departures(g) && Books(g) && phase.Previewed? && id !in g.seenIds && g.clock <= later
    ensures Departures(StoreLedger(cfg, g, phase, id, code, encodedBytes, later))
  {
    var stored := StoreLedger(cfg, g, phase, id, code, encodedBytes, later);
    FreshIdIsUnknown(g, id);
    forall other | other in stored.created && other !in stored.plans ensures Done(stored, other) {
      if other in g.plans {
        assert PlanRecorded(g, other);
      } else {
        assert Done(g, other);
      }
    }
  }

  /** A confirmation removes only the plan it consumes, finds expired or locks. */
  lemma {:induction false} ConfirmDepartures(g: Ledger, phase: Phase)
    requires Departures(g) && Books(g) && phase.Confirming?
    ensures Departures(ConfirmLedger(g, phase))
  {
    var Confirming(subject, id, code) := phase;
    var later := ConfirmLedger(g, phase);
    ConsumeIsFair(g.plans, id, subject, code, g.clock);
    ConfirmFrame(g, phase);
    forall other | other in later.created && other !in later.plans ensures Done(later, other) {
      if other in g.plans {
        assert other == id && PlanRecorded(g, id);
        DigitsAreDigits(code);
        if later.consumed != g.consumed {
          assert later.consumed[|g.consumed|].id == id;
        }
      } else {
        assert Done(g, other);
        assert other == id ==> later.compared == g.compared;
        if ConsumedId(g, other) {
          ConsumedIdKept(g, later, other);
        }
      }
    }
  }

  lemma {:induction false} OtherStepsKeepPlans(cfg: Config, s: State, l: Label)
    requires Enabled(cfg, s, l) && !l.StorePlan? && !l.Confirm?
    ensures var g, later := s.ledger, Next(cfg, s, l).ledger;
            && later.plans == g.plans && later.created == g.created && later.consumed == g.consumed
            && later.compared == g.compared && g.clock <= later.clock
  {
  }

  lemma {:induction false} StepKeepsDepartures(cfg: Config, s: State, l: Label)
    requires Books(s.ledger) && Departures(s.ledger) && Enabled(cfg, s, l)
    ensures Departures(Next(cfg, s, l).ledger)
  {
    match l
    case StorePlan(pid, id, code, encodedBytes, later) =>
      StoreDepartures(cfg, s.ledger, s.procs[pid].phase, id, code, encodedBytes, later);
    case Confirm(pid) => ConfirmDepartures(s.ledger, s.procs[pid].phase);
    case _ =>
      OtherStepsKeepPlans(cfg, s, l);
      SameDepartures(s.ledger, Next(cfg, s, l).ledger);
  }

  lemma {:induction false} RunKeepsDepartures(cfg: Config, s: State, labels: seq<Label>)
    requires Inv(cfg, s) && Departures(s.ledger) && ValidRun(cfg, s, labels)
    ensures Departures(Run(cfg, s, labels).ledger)
    decreases |labels|
  {
    if labels != [] {
      StepKeepsInv(cfg, s, labels[0]);
      StepKeepsDepartures(cfg, s, labels[0]);
      RunKeepsDepartures(cfg, Next(cfg, s, labels[0]), labels[1..]);
    }
  }

  /** Whatever others do, a plan stays until it is consumed, expires or has had five wrong codes of its own subject, and
      as long as it stays its own subject can consume it with its code. */
  lemma {:induction false} PlansStayUntilDone(cfg: Config, s: State, labels: seq<Label>, id: string)
    requires Initial(s) && ValidRun(cfg, s, labels)
    requires id in Run(cfg, s, labels).ledger.created
    ensures var g := Run(cfg, s, labels).ledger;
            && (id !in g.plans ==>
                  ConsumedId(g, id) || g.clock > g.created[id].expiresAt || ComparedTimes(g, id) == 5)
            && (id in g.plans ==> Consumable(g, id))
  {
    var g := Run(cfg, s, labels).ledger;
    InitialInv(cfg, s);
    RunKeepsDepartures(cfg, s, labels);
    ReachableInv(cfg, s, labels);
    if id in g.plans {
      StoredPlanIsConsumable(g, id);
    } else {
      assert Done(g, id);
    }
  }

  // ----- admission -----

  /** The request streams a read, or holds an exec or attach operation that Consume returned to it. */
  predicate RemoteWork(phase: Phase) {
    match phase
    case Rechecking(_, op) => op.action.Exec? || op.action.Attach?
    case Checked(_, op, _) => op.action.Exec? || op.action.Attach?
    case Running(_, op) => op.action.Exec? || op.action.Attach?
    case Streaming => true
    case _ => false
  }

  /** Slots are counted exactly and bounded, and a streaming read or a consumed exec or attach always holds a stream
      slot. */
  lemma {:induction false} SlotsAreRespected(cfg: Config, s: State, labels: seq<Label>)
    requires Initial(s) && ValidRun(cfg, s, labels)
    ensures var now := Run(cfg, s, labels);
            && |now.procs| <= cfg.concurrent
            && now.streams == |Holders(now.procs)|
            && (cfg.concurrent > 0 ==> now.streams <= cfg.concurrent - 1)
            && (forall identity ::
                  && CountOf(now.identities, identity) == |AdmittedAs(now.procs, identity)|
                  && 2 * CountOf(now.identities, identity) <= cfg.concurrent + 1)
            && (forall pid :: pid in now.procs && RemoteWork(now.procs[pid].phase) ==> now.procs[pid].stream)
  {
    ReachableInv(cfg, s, labels);
    var now := Run(cfg, s, labels);
    forall identity
      ensures CountOf(now.identities, identity) == |AdmittedAs(now.procs, identity)|
      ensures 2 * CountOf(now.identities, identity) <= cfg.concurrent + 1
    {
      assert IdentityCounted(cfg, now.identities, now.procs, identity);
      AdmittedBound(now.procs, identity);
    }
    forall pid | pid in now.procs && RemoteWork(now.procs[pid].phase)
      ensures now.procs[pid].stream
    {
      assert ProcSound(cfg, now.ledger, now.procs[pid]);
    }
  }

  lemma {:induction false} AdmittedBound(procs: Requests, identity: string)
    ensures |AdmittedAs(procs, identity)| <= |procs|
  {
    SubsetSize(AdmittedAs(procs, identity), procs.Keys);
    assert |procs.Keys| == |procs|;
  }

  lemma {:induction false} SubsetSize(some: set<int>, all: set<int>)
    requires some <= all
    ensures |some| <= |all|
  {
    assert all == some + (all - some);
  }

  /** A stored plan is consumable with its own code, by its own subject, until it expires. */
  ghost predicate Consumable(g: Ledger, id: string) {
    && id in g.created
    && var made := g.created[id];
       forall now :: now <= made.expiresAt && ValidCode(made.code) ==>
         ConsumePlan(g.plans, id, made.subject, made.code, now).1 == Consumed(made.operation)
  }

  lemma {:induction false} StoredPlanIsConsumable(g: Ledger, id: string)
    requires Books(g) && id in g.plans
    ensures Consumable(g, id)
  {
    assert PlanRecorded(g, id);
  }

  /** What a refusal of a stream slot leaves, in any state whose books are in order. */
  lemma {:induction false} RefusalKeepsPlan(cfg: Config, now: State, pid: int)
    requires Books(now.ledger) && pid in now.procs && now.procs[pid].phase.NeedsStream?
    requires now.streams >= StreamCapacity(cfg.concurrent)
    ensures var later := Next(cfg, now, TakeStream(pid));
            && later == Go(now, pid, Returning) && later.ledger == now.ledger && later.streams == now.streams
            && (now.procs[pid].phase.id in now.ledger.plans ==> Consumable(now.ledger, now.procs[pid].phase.id))
  {
    if now.procs[pid].phase.id in now.ledger.plans {
      StoredPlanIsConsumable(now.ledger, now.procs[pid].phase.id);
    }
  }

  /** A commit refused for lack of stream capacity ends there: it changes no plan and no history, and the approved plan
      can still be consumed with its own code until it expires. */
  lemma {:induction false} RefusedStreamKeepsPlan(cfg: Config, s: State, labels: seq<Label>, now: State, pid: int)
    requires Initial(s) && ValidRun(cfg, s, labels) && now == Run(cfg, s, labels)
    requires pid in now.procs && now.procs[pid].phase.NeedsStream?
    requires now.streams >= StreamCapacity(cfg.concurrent)
    ensures var later := Next(cfg, now, TakeStream(pid));
            && later == Go(now, pid, Returning) && later.ledger == now.ledger && later.streams == now.streams
            && (now.procs[pid].phase.id in now.ledger.plans ==> Consumable(now.ledger, now.procs[pid].phase.id))
  {
    ReachableInv(cfg, s, labels);
    RefusalKeepsPlan(cfg, now, pid);
  }
}
