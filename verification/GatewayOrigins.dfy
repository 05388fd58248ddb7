/** Every stored plan, and so every write, stems from a plan call and does what that call asked for. */
module GatewayOrigins {
  import opened JsonValues
  import opened Operations
  import opened Patches
  import opened Execution
  import opened PlannedChanges
  import opened PlanStores
  import opened Gateway
  import opened GatewaySafety
  import opened GatewayRuns

  /** The calls that requests were admitted with. */
  function CallsIn(labels: seq<Label>): set<ToolCall> {
    set l | l in labels && l.Admit? :: l.call
  }

  /** The operation is what some plan call of this subject asked for. */
  ghost predicate Stems(calls: set<ToolCall>, subject: string, op: Operation) {
    exists asked, stamp :: PlanCall(subject, asked) in calls && CapturedFrom(asked, op, stamp)
  }

  /** The same, before the target has been read: the call itself, under the name it means. */
  ghost predicate StemsUnread(calls: set<ToolCall>, subject: string, op: Operation) {
    exists asked :: PlanCall(subject, asked) in calls && Unread(asked, op)
  }

  predicate Unread(asked: Operation, op: Operation) {
    op == asked.(name := TargetName(asked), targetUID := op.targetUID, resourceVersion := op.resourceVersion,
                 expectedAbsent := op.expectedAbsent, generation := op.generation)
  }

  ghost predicate PhaseStems(calls: set<ToolCall>, phase: Phase) {
    match phase
    case Planning(subject, op) => StemsUnread(calls, subject, op)
    case Observed(subject, op, _) => Stems(calls, subject, op)
    case Previewed(subject, op, _, _, _) => Stems(calls, subject, op)
    case _ => true
  }

  ghost predicate CreationStems(calls: set<ToolCall>, made: Creation) {
    Stems(calls, made.subject, made.operation)
  }

  ghost predicate Origins(calls: set<ToolCall>, s: State) {
    && (forall pid :: pid in s.procs ==> PhaseStems(calls, s.procs[pid].phase))
    && forall id :: id in s.ledger.created ==> CreationStems(calls, s.ledger.created[id])
  }

  lemma {:induction false} MoreCalls(calls: set<ToolCall>, more: set<ToolCall>, s: State)
    requires Origins(calls, s)
    ensures Origins(calls + more, s)
  {
    forall pid | pid in s.procs ensures PhaseStems(calls + more, s.procs[pid].phase) {
      assert PhaseStems(calls, s.procs[pid].phase);
    }
    forall id | id in s.ledger.created ensures CreationStems(calls + more, s.ledger.created[id]) {
      assert CreationStems(calls, s.ledger.created[id]);
    }
  }

  /** The plan tool fills in the name the call means, and changes nothing else of it. */
  lemma {:induction false} StartStems(cfg: Config, call: ToolCall)
    ensures PhaseStems({call}, StartOf(cfg, call))
  {
    if call.PlanCall? && StartOf(cfg, call).Planning? {
      var asked, op := call.op, StartOf(cfg, call).op;
      if asked.manifest.Some? {
        MetadataTextIsAt(Object(asked.manifest.value), "name");
      }
      assert Unread(asked, op) && PlanCall(call.subject, asked) in {call};
    }
  }

  /** Reading the target adds it to the operation, and changes nothing else of it. */
  lemma {:induction false} ObserveStems(calls: set<ToolCall>, api: Api, phase: Phase, stamp: string, container: string)
    requires phase.Planning? && PhaseStems(calls, phase) && (phase.op.action.Create? || phase.op.name != "")
    ensures PhaseStems(calls, ObservePhase(api, phase, stamp, container))
  {
    var current := Lookup(api, KeyOf(Named(phase.op)));
    if Capture(phase.op, current, stamp, container).Some? {
      var op := Capture(phase.op, current, stamp, container).value;
      CaptureSaysTheSame(phase.op, current, stamp, container);
      var asked :| PlanCall(phase.subject, asked) in calls && Unread(asked, phase.op);
      CapturedThrough(asked, phase.op, op, stamp);
      assert Stems(calls, phase.subject, op);
    }
  }

  lemma {:induction false} CapturedThrough(asked: Operation, unread: Operation, op: Operation, stamp: string)
    requires Unread(asked, unread) && CapturedFrom(unread, op, stamp)
    ensures CapturedFrom(asked, op, stamp)
  {
    if op.manifest != asked.manifest && HoldsMetadata(op.manifest.value) {
      assert ObjectAsAsked(unread, Object(op.manifest.value));
    }
  }

  lemma {:induction false} PhaseOrigins(calls: set<ToolCall>, s: State, pid: int, phase: Phase)
    requires Origins(calls, s) && pid in s.procs && PhaseStems(calls, phase)
    ensures Origins(calls, Go(s, pid, phase))
  {
  }

  /** The phases that carry an operation which is not stored yet. */
  predicate Unstored(phase: Phase) { phase.Planning? || phase.Observed? || phase.Previewed? }

  /** Requests gain no such operation, and no plan is created. */
  ghost predicate NoNewOrigins(s: State, next: State) {
    && next.ledger.created == s.ledger.created
    && forall pid :: pid in next.procs && Unstored(next.procs[pid].phase) ==>
         pid in s.procs && next.procs[pid].phase == s.procs[pid].phase
  }

  lemma {:induction false} OtherStepsAddNothing(cfg: Config, s: State, l: Label)
    requires Enabled(cfg, s, l) && !l.Admit? && !l.Observe? && !l.DryRun? && !l.StorePlan?
    ensures NoNewOrigins(s, Next(cfg, s, l))
  {
  }

  lemma {:induction false} OriginsKept(calls: set<ToolCall>, s: State, next: State)
    requires Origins(calls, s) && NoNewOrigins(s, next)
    ensures Origins(calls, next)
  {
    forall pid | pid in next.procs && Unstored(next.procs[pid].phase)
      ensures PhaseStems(calls, next.procs[pid].phase)
    {
      assert PhaseStems(calls, s.procs[pid].phase);
    }
  }

  lemma {:induction false} AdmitKeepsOrigins(cfg: Config, calls: set<ToolCall>, s: State, pid: int, call: ToolCall)
    requires Origins(calls, s) && pid in s.procs && call in calls
    ensures Origins(calls, AdmitStep(cfg, s, pid, call))
  {
    StartStems(cfg, call);
    StemsMore({call}, calls, StartOf(cfg, call));
  }

  lemma {:induction false} StoreKeepsOrigins(cfg: Config, calls: set<ToolCall>, s: State, pid: int, id: string,
                                             code: string, encodedBytes: nat, later: int)
    requires Origins(calls, s) && pid in s.procs && s.procs[pid].phase.Previewed?
    ensures var stored := StoreLedger(cfg, s.ledger, s.procs[pid].phase, id, code, encodedBytes, later);
            Origins(calls, Go(s, pid, Returning).(ledger := stored))
  {
    assert PhaseStems(calls, s.procs[pid].phase);
    PhaseOrigins(calls, s, pid, Returning);
  }

  lemma {:induction false} StepKeepsOrigins(cfg: Config, calls: set<ToolCall>, s: State, l: Label)
    requires ProcsSound(cfg, s.ledger, s.procs) && Origins(calls, s) && Enabled(cfg, s, l)
    requires l.Admit? ==> l.call in calls
    ensures Origins(calls, Next(cfg, s, l))
  {
    match l
    case Admit(pid, call) => AdmitKeepsOrigins(cfg, calls, s, pid, call);
    case Observe(pid, stamp, container) =>
      assert ProcSound(cfg, s.ledger, s.procs[pid]);
      assert PhaseStems(calls, s.procs[pid].phase);
      ObserveStems(calls, s.ledger.api, s.procs[pid].phase, stamp, container);
      PhaseOrigins(calls, s, pid, ObservePhase(s.ledger.api, s.procs[pid].phase, stamp, container));
    case DryRun(pid, dry) =>
      assert PhaseStems(calls, s.procs[pid].phase);
      PhaseOrigins(calls, s, pid, DryRunPhase(cfg, s.ledger.api, s.procs[pid].phase, dry));
    case StorePlan(pid, id, code, encodedBytes, later) =>
      StoreKeepsOrigins(cfg, calls, s, pid, id, code, encodedBytes, later);
    case _ =>
      OtherStepsAddNothing(cfg, s, l);
      OriginsKept(calls, s, Next(cfg, s, l));
  }

  lemma {:induction false} StemsMore(calls: set<ToolCall>, all: set<ToolCall>, phase: Phase)
    requires PhaseStems(calls, phase) && calls <= all
    ensures PhaseStems(all, phase)
  {
  }

  lemma {:induction false} CallsAhead(labels: seq<Label>)
    requires labels != []
    ensures CallsIn(labels[1..]) <= CallsIn(labels)
    ensures labels[0].Admit? ==> labels[0].call in CallsIn(labels)
  {
  }

  lemma {:induction false} RunKeepsOrigins(cfg: Config, calls: set<ToolCall>, s: State, labels: seq<Label>)
    requires Inv(cfg, s) && Origins(calls, s) && ValidRun(cfg, s, labels) && CallsIn(labels) <= calls
    ensures Origins(calls, Run(cfg, s, labels))
    decreases |labels|
  {
    if labels != [] {
      CallsAhead(labels);
      StepKeepsInv(cfg, s, labels[0]);
      StepKeepsOrigins(cfg, calls, s, labels[0]);
      RunKeepsOrigins(cfg, calls, Next(cfg, s, labels[0]), labels[1..]);
    }
  }

  // ----- end to end -----

  /** The write does, to the object it found under the key the call names, what the call asked for. */
  ghost predicate DoesWhatWasAsked(server: Server, asked: Operation, stamp: string, w: Write) {
    && w.key == Key(asked.resource, if asked.namespaced then asked.namespace else "", TargetName(asked))
    && AsAsked(server, asked, stamp, w.before, w.verdict)
    && w.after == server.persist(w.before, w.verdict, w.stamp)
  }

  ghost predicate WasAskedFor(server: Server, calls: set<ToolCall>, subject: string, w: Write) {
    exists asked, stamp :: PlanCall(subject, asked) in calls && DoesWhatWasAsked(server, asked, stamp, w)
  }

  /** Every persisted write is somebody's own plan call carried out: a subject called the plan tool with an operation,
      the same subject confirmed the plan, and the object the write left is what the server makes of that operation on
      the object the plan observed. */
  lemma {:induction false} WritesDoWhatWasAsked(cfg: Config, s: State, labels: seq<Label>)
    requires Initial(s) && ValidRun(cfg, s, labels)
    ensures var g := Run(cfg, s, labels).ledger;
            forall i :: 0 <= i < |g.writes| ==>
              && g.writes[i].id in g.created
              && WasAskedFor(cfg.server, CallsIn(labels), g.created[g.writes[i].id].subject, g.writes[i])
  {
    var g, calls := Run(cfg, s, labels).ledger, CallsIn(labels);
    InitialInv(cfg, s);
    RunKeepsOrigins(cfg, calls, s, labels);
    ReachableInv(cfg, s, labels);
    forall i | 0 <= i < |g.writes|
      ensures WriteRecorded(g, g.writes[i])
      ensures WasAskedFor(cfg.server, calls, g.created[g.writes[i].id].subject, g.writes[i])
    {
      assert WriteRecorded(g, g.writes[i]);
      assert CreationStems(calls, g.created[g.writes[i].id]);
      WriteWasAskedFor(cfg, calls, g, g.writes[i]);
    }
  }

  /** A stream runs the command some plan call of its plan's subject asked for, in the pod that call named. */
  ghost predicate StreamWasAskedFor(calls: set<ToolCall>, subject: string, op: Operation) {
    exists asked :: && PlanCall(subject, asked) in calls && asked.action == op.action
                    && op.command == asked.command && op.stdin == asked.stdin
                    && KeyOf(op) == Key(asked.resource, if asked.namespaced then asked.namespace else "",
                                        TargetName(asked))
  }

  lemma {:induction false} StreamsRunWhatWasAsked(cfg: Config, s: State, labels: seq<Label>, pid: int)
    requires Initial(s) && ValidRun(cfg, s, labels)
    requires pid in Run(cfg, s, labels).procs && Run(cfg, s, labels).procs[pid].phase.Running?
    ensures var now := Run(cfg, s, labels);
            && now.procs[pid].phase.id in now.ledger.created
            && StreamWasAskedFor(CallsIn(labels), now.ledger.created[now.procs[pid].phase.id].subject,
                                 now.procs[pid].phase.op)
  {
    var now, calls := Run(cfg, s, labels), CallsIn(labels);
    InitialInv(cfg, s);
    RunKeepsOrigins(cfg, calls, s, labels);
    ReachableInv(cfg, s, labels);
    assert ProcSound(cfg, now.ledger, now.procs[pid]);
    var made := now.ledger.created[now.procs[pid].phase.id];
    assert CreationStems(calls, made);
    var asked, stamp :| PlanCall(made.subject, asked) in calls && CapturedFrom(asked, made.operation, stamp);
    assert asked.action == made.operation.action;
  }

  lemma {:induction false} WriteWasAskedFor(cfg: Config, calls: set<ToolCall>, g: Ledger, w: Write)
    requires WriteRecorded(g, w) && CreationBound(cfg, g.api, g.created[w.id])
    requires CreationStems(calls, g.created[w.id]) && w.after == cfg.server.persist(w.before, w.verdict, w.stamp)
    ensures WasAskedFor(cfg.server, calls, g.created[w.id].subject, w)
  {
    var made := g.created[w.id];
    var asked, stamp :| PlanCall(made.subject, asked) in calls && CapturedFrom(asked, made.operation, stamp);
    RecordedWriteIsAsPlanned(cfg, g, w);
    AskedBefore(cfg.server, asked, made.operation, stamp, w.before, w.verdict);
    assert DoesWhatWasAsked(cfg.server, asked, stamp, w);
  }
}
