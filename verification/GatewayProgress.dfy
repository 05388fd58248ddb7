/** What an undisturbed caller gets: an approved plan whose target has not changed is carried out. */
module GatewayProgress {
  import opened JsonValues
  import opened Operations
  import opened Patches
  import opened Execution
  import opened PlannedChanges
  import opened PlanStores
  import opened Admission
  import opened Gateway
  import opened GatewaySafety
  import opened GatewayRuns
  import SafeWrite

  // ----- which operations are refused before the server sees them -----

  predicate UnderOperator(current: Json) {
    ValueAt(current, ["metadata", "labels", "app.kubernetes.io/managed-by"]) == Some(String("supek8smcp-operator"))
  }

  lemma {:induction false} ManagedIsUnderOperator(current: Json)
    ensures OperatorManaged(current) <==> UnderOperator(current)
  {
    var keys := ["metadata", "labels", "app.kubernetes.io/managed-by"];
    assert keys[1..] == ["labels", "app.kubernetes.io/managed-by"];
    assert keys[1..][1..] == ["app.kubernetes.io/managed-by"] && keys[1..][1..][1..] == [];
  }

  /** The target is there and may be touched; for a create, it is not there. */
  predicate TargetOpen(op: Operation, current: Option<Json>) {
    if op.action.Create? then current.None? else current.Some? && !UnderOperator(current.value)
  }

  /** The call carries what its action needs. */
  predicate Complete(op: Operation) {
    match op.action
    case Create => op.manifest.Some? && HoldsMetadata(op.manifest.value) && TargetName(op) != ""
    case Apply => op.manifest.Some? && HoldsMetadata(op.manifest.value)
    case Update => op.manifest.Some?
    case Exec => op.command != []
    case _ => true
  }

  /** The read half of a preview refuses exactly incomplete calls and closed targets. */
  lemma {:induction false} CaptureExactly(op: Operation, current: Option<Json>, stamp: string, container: string)
    requires op.action.Create? || op.name != ""
    ensures Capture(op, current, stamp, container).Some? <==> TargetOpen(op, current) && Complete(op)
  {
    if current.Some? {
      ManagedIsUnderOperator(current.value);
    }
    if op.manifest.Some? && (op.action.Create? || op.action.Apply?) {
      NamedExactly(op);
    }
  }

  lemma {:induction false} NamedExactly(op: Operation)
    requires op.manifest.Some?
    ensures NameOf(Object(OperationObject(op).value)) ==
            if HoldsMetadata(op.manifest.value) then TargetName(op) else ""
  {
    SetMetadataKeepsName(Typed(op), "namespace", op.namespace);
    SetMetadataKeepsName(SetMetadata(Typed(op), "name", op.name), "namespace", op.namespace);
    MetadataTextIsAt(Object(op.manifest.value), "name");
    if HoldsMetadata(op.manifest.value) {
      SetMetadataSets(Typed(op), "name", op.name, "");
    }
  }

  /** A request is sent exactly if the operation carries a body of the form its action needs. */
  lemma {:induction false} RequestExactly(op: Operation)
    requires op.action.Create? || op.resourceVersion != ""
    ensures RequestFor(op).Some? <==>
            match op.action
            case Create => op.manifest.Some?
            case Apply => op.manifest.Some?
            case Update => op.manifest.Some?
            case Scale => op.replicas.Some?
            case Restart => op.patch.Some? && op.patch.value.Object?
            case Patch =>
              && op.patch.Some?
              && if op.patchType == "json" then op.patch.value.List? || op.patch.value.Null?
                 else op.patchType in {"", "merge"} && op.patch.value.Object?
            case Delete => true
            case Exec => false
            case Attach => false
  {
  }

  // ----- an undisturbed commit -----

  /** The plan is stored, in time, its code is right, and its target is still the object it observed. */
  ghost predicate Undisturbed(cfg: Config, s: State, pid: int, id: string) {
    && pid in s.procs && s.procs[pid].phase.Committing? && s.procs[pid].phase.id == id
    && id in s.ledger.plans && id in s.ledger.created
    && var made := s.ledger.created[id];
       && s.procs[pid].phase.subject == made.subject && s.procs[pid].phase.code == made.code && SixDigits(made.code)
       && s.ledger.clock <= made.expiresAt && made.operation.generation == cfg.generation
       && Lookup(s.ledger.api, KeyOf(made.operation)) == made.observed
  }

  /** Previewing a stored operation again, on the object it observed, asks the server for the same thing. */
  lemma {:induction false} RecaptureAsksTheSame(op: Operation, observed: Option<Json>, stamp: string, container: string)
    requires BoundTo(op, observed) && WellPlanned(op)
    requires op.action.Create? || op.action.Update? ==>
               op.manifest.Some? && op.name != "" && NameOf(Object(OperationObject(op).value)) == op.name
    requires op.action.Restart? ==> op.patch.Some?
    ensures KeyOf(Named(op)) == KeyOf(op)
    ensures Capture(op, observed, stamp, container).Some?
    ensures var copy := Capture(op, observed, stamp, container).value;
            copy.action == op.action && KeyOf(copy) == KeyOf(op) && RequestFor(copy) == RequestFor(op)
  {
    match op.action
    case Apply =>
      OperationObjectName(op);
      StoredObjectIsRebuilt(op, op.resourceVersion);
    case Update => StoredObjectIsRebuilt(op, op.resourceVersion);
    case _ =>
  }

  predicate At(s: State, pid: int, phase: Phase) { pid in s.procs && s.procs[pid].phase == phase }

  lemma {:induction false} OneStepFirst(cfg: Config, s: State, l: Label, labels: seq<Label>)
    requires Enabled(cfg, s, l) && ValidRun(cfg, Next(cfg, s, l), labels)
    ensures ValidRun(cfg, s, [l] + labels)
    ensures Run(cfg, s, [l] + labels) == Run(cfg, Next(cfg, s, l), labels)
  {
    assert ([l] + labels)[0] == l && ([l] + labels)[1..] == labels;
  }

  /** The stored operation, as far as the last steps of a commit depend on it. */
  ghost predicate Ready(cfg: Config, api: Api, op: Operation, observed: Option<Json>, preview: Option<Verdict>,
                        dry: string)
  {
    && Bound(api, op, observed) && PreviewOf(cfg, op, observed, preview, dry)
    && Lookup(api, KeyOf(op)) == observed && op.generation == cfg.generation
  }

  lemma {:induction false} RecheckPasses(cfg: Config, api: Api, op: Operation, observed: Option<Json>,
                                         preview: Option<Verdict>, dry: string, id: string)
    requires Ready(cfg, api, op, observed, preview, dry)
    ensures RecheckPhase(cfg, api, Rechecking(id, op)) == Checked(id, op, None)
  {
  }

  lemma {:induction false} ReadyAttempt(cfg: Config, api: Api, op: Operation, observed: Option<Json>,
                                        preview: Option<Verdict>, dry: string)
    requires Ready(cfg, api, op, observed, preview, dry) && !IsRemote(op)
    ensures preview == Some(Attempt(cfg, api, op)) && Accepted(cfg, api, op)
    ensures op.action.Create? || op.action.Update? ==>
              op.manifest.Some? && op.name != "" && NameOf(Object(OperationObject(op).value)) == op.name
    ensures op.action.Restart? ==> op.patch.Some?
  {
    if op.action.Update? {
      SetMetadataKeepsName(OperationObject(op).value, "resourceVersion", op.resourceVersion);
    }
  }

  lemma {:induction false} RevalidationPasses(cfg: Config, api: Api, op: Operation, observed: Option<Json>,
                                              preview: Option<Verdict>, dry: string, id: string, stamp: string,
                                              container: string)
    requires Ready(cfg, api, op, observed, preview, dry)
    ensures var phase := RevalidatePhase(cfg, api, Checked(id, op, None), stamp, container, dry);
            phase.Checked? && phase.validation.Some? && phase == Checked(id, op, phase.validation)
  {
    if !IsRemote(op) {
      ReadyAttempt(cfg, api, op, observed, preview, dry);
    }
    RecaptureAsksTheSame(op, observed, stamp, container);
  }

  lemma {:induction false} CaptureFindsTarget(op: Operation, current: Option<Json>, stamp: string, container: string)
    requires Capture(op, current, stamp, container).Some? && !op.action.Create?
    ensures current.Some? && Capture(op, current, stamp, container).value.action == op.action
  {
  }

  /** What a second preview has seen that lets a commit go on. */
  ghost predicate SeenSafe(cfg: Config, api: Api, op: Operation, copy: Operation, dry: string) {
    var current, verdict := Lookup(api, KeyOf(Named(op))), Attempt(cfg, api, copy);
    && current.Some? && !verdict.Rejected?
    && var answer := cfg.server.persist(current, verdict, dry);
       answer.Some? && SafeWrite.Accepts(cfg.casing, cfg.position, current.value, answer.value, "")
  }

  /** In SafeWrite mode nothing is executed before a second preview, and one that lets the commit go on has asked the
      server again and accepts its answer as a transition from the object there now. */
  lemma {:induction false} RevalidationIsSafe(cfg: Config, s: State, pid: int, id: string, op: Operation, stamp: string,
                                              container: string, dry: string)
    requires cfg.safeWrite && At(s, pid, Checked(id, op, None))
    ensures forall time :: !Enabled(cfg, s, Execute(pid, time))
    ensures var phase := RevalidatePhase(cfg, s.ledger.api, Checked(id, op, None), stamp, container, dry);
            phase.Checked? && op.action in {Apply, Patch, Restart, Update} ==>
              && phase.op == op && phase.validation.Some?
              && SeenSafe(cfg, s.ledger.api, op, phase.validation.value, dry)
  {
    var current := Lookup(s.ledger.api, KeyOf(Named(op)));
    if Capture(op, current, stamp, container).Some? && !op.action.Create? {
      CaptureFindsTarget(op, current, stamp, container);
    }
  }

  /** The write that carries out a plan. */
  function WriteOf(cfg: Config, id: string, op: Operation, observed: Option<Json>, verdict: Verdict,
                   stamp: string): Write
  {
    Write(id, KeyOf(op), observed, verdict, stamp, cfg.server.persist(observed, verdict, stamp))
  }

  /** The recheck of a consumed plan passes exactly if the policy generation is still the plan's and the cluster still
      holds the object the plan observed; for exec and attach, which no later version check guards, this is the check.
      An observed object without a UID is not looked at again. */
  lemma {:induction false} RecheckExactly(cfg: Config, g: Ledger, id: string)
    requires ApiConsistent(g.api) && id in g.created && CreationBound(cfg, g.api, g.created[id])
    ensures var made := g.created[id];
            RecheckPhase(cfg, g.api, Rechecking(id, made.operation)) ==
            if made.operation.generation == cfg.generation &&
               (|| Lookup(g.api, KeyOf(made.operation)) == made.observed
                || (made.observed.Some? && TextAt(made.observed.value, ["metadata", "uid"]) == ""))
            then Checked(id, made.operation, None) else Returning
  {
    var made := g.created[id];
    var current := Lookup(g.api, KeyOf(made.operation));
    if made.observed.Some? {
      MetadataTextIsAt(made.observed.value, "uid");
      if current.Some? {
        assert VersionRecorded(g.api, KeyOf(made.operation), current.value);
      }
    }
  }

  /** From the recheck on. */
  lemma {:induction false} CheckedCommitWrites(cfg: Config, s: State, pid: int, id: string, op: Operation,
                                               observed: Option<Json>, preview: Option<Verdict>, dry: string,
                                               stamp: string, container: string)
    returns (labels: seq<Label>)
    requires At(s, pid, Rechecking(id, op)) && Ready(cfg, s.ledger.api, op, observed, preview, dry)
    requires !IsRemote(op) && Persistable(cfg, s.ledger.api, op, stamp)
    ensures ValidRun(cfg, s, labels)
    ensures Run(cfg, s, labels).ledger ==
            WithWrite(s.ledger, WriteOf(cfg, id, op, observed, preview.value, stamp))
  {
    RecheckPasses(cfg, s.ledger.api, op, observed, preview, dry, id);
    ReadyAttempt(cfg, s.ledger.api, op, observed, preview, dry);
    var checked := Next(cfg, s, Recheck(pid));
    if cfg.safeWrite {
      var again := Revalidate(pid, stamp, container, dry);
      RevalidationPasses(cfg, s.ledger.api, op, observed, preview, dry, id, stamp, container);
      OneStepFirst(cfg, Next(cfg, checked, again), Execute(pid, stamp), []);
      OneStepFirst(cfg, checked, again, [Execute(pid, stamp)] + []);
      labels := [again] + ([Execute(pid, stamp)] + []);
    } else {
      OneStepFirst(cfg, checked, Execute(pid, stamp), []);
      labels := [Execute(pid, stamp)] + [];
    }
    OneStepFirst(cfg, s, Recheck(pid), labels);
    labels := [Recheck(pid)] + labels;
  }

  /** The plan and its code are right and in time, and the cluster still holds what it observed. */
  ghost predicate Approved(cfg: Config, g: Ledger, id: string) {
    && PlanRecorded(g, id) && SixDigits(g.created[id].code) && g.clock <= g.created[id].expiresAt
    && var made := g.created[id]; Ready(cfg, g.api, made.operation, made.observed, made.preview, made.dry)
  }

  lemma {:induction false} UndisturbedIsApproved(cfg: Config, s: State, pid: int, id: string)
    requires LedgerSound(cfg, s.ledger) && Undisturbed(cfg, s, pid, id)
    ensures Approved(cfg, s.ledger, id)
    ensures At(s, pid, Committing(s.ledger.created[id].subject, id, s.ledger.created[id].code))
  {
    assert PlanRecorded(s.ledger, id) && CreationBound(cfg, s.ledger.api, s.ledger.created[id]);
  }

  lemma {:induction false} CommitIsSorted(cfg: Config, s: State, pid: int, id: string, made: Creation)
    requires At(s, pid, Committing(made.subject, id, made.code))
    requires PlanRecorded(s.ledger, id) && made == s.ledger.created[id]
    ensures var next := Next(cfg, s, CheckRemote(pid));
            && next.ledger == s.ledger && next.streams == s.streams
            && At(next, pid, if made.operation.action.Exec? || made.operation.action.Attach?
                             then NeedsStream(made.subject, id, made.code)
                             else Confirming(made.subject, id, made.code))
  {
  }

  lemma {:induction false} FreeStreamIsTaken(cfg: Config, s: State, pid: int, subject: string, id: string, code: string)
    requires At(s, pid, NeedsStream(subject, id, code)) && s.streams + 1 < cfg.concurrent
    ensures var next := Next(cfg, s, TakeStream(pid));
            && next.ledger == s.ledger && next.streams == s.streams + 1
            && At(next, pid, Confirming(subject, id, code)) && next.procs[pid].stream
  {
  }

  /** The owner's right code turns the plan into work, whatever else is stored. */
  lemma {:induction false} RightCodeConfirms(cfg: Config, s: State, pid: int, id: string, made: Creation)
    requires PlanRecorded(s.ledger, id) && made == s.ledger.created[id]
    requires SixDigits(made.code) && s.ledger.clock <= made.expiresAt
    requires At(s, pid, Confirming(made.subject, id, made.code))
    ensures var next := Next(cfg, s, Confirm(pid));
            && At(next, pid, Rechecking(id, made.operation))
            && next.ledger.api == s.ledger.api && next.ledger.writes == s.ledger.writes
            && next.streams == s.streams && next.procs[pid].stream == s.procs[pid].stream
  {
    DigitsAreDigits(made.code);
  }

  /** Whoever holds an undisturbed plan and its code gets it carried out: the steps of the commit are enabled one after
      the other, and leave in the cluster what the server makes of the previewed verdict. */
  lemma {:induction false} UndisturbedCommitWrites(cfg: Config, s: State, pid: int, id: string, stamp: string,
                                                   container: string)
    returns (labels: seq<Label>)
    requires LedgerSound(cfg, s.ledger) && Undisturbed(cfg, s, pid, id)
    requires var op := s.ledger.created[id].operation;
             !op.action.Exec? && !op.action.Attach? && Persistable(cfg, s.ledger.api, op, stamp)
    ensures ValidRun(cfg, s, labels)
    ensures var g, made := Run(cfg, s, labels).ledger, s.ledger.created[id];
            && made.preview.Some?
            && var w := WriteOf(cfg, id, made.operation, made.observed, made.preview.value, stamp);
               g.writes == s.ledger.writes + [w] && Lookup(g.api, w.key) == w.after
  {
    UndisturbedIsApproved(cfg, s, pid, id);
    labels := ApprovedCommitWrites(cfg, s, pid, id, s.ledger.created[id], stamp, container);
  }

  lemma {:induction false} ApprovedCommitWrites(cfg: Config, s: State, pid: int, id: string, made: Creation,
                                                stamp: string, container: string)
    returns (labels: seq<Label>)
    requires Approved(cfg, s.ledger, id) && made == s.ledger.created[id]
    requires At(s, pid, Committing(made.subject, id, made.code))
    requires !IsRemote(made.operation) && Persistable(cfg, s.ledger.api, made.operation, stamp)
    ensures ValidRun(cfg, s, labels) && made.preview.Some?
    ensures var g, w := Run(cfg, s, labels).ledger,
                        WriteOf(cfg, id, made.operation, made.observed, made.preview.value, stamp);
            g.writes == s.ledger.writes + [w] && Lookup(g.api, w.key) == w.after
  {
    CommitIsSorted(cfg, s, pid, id, made);
    var second := Next(cfg, s, CheckRemote(pid));
    RightCodeConfirms(cfg, second, pid, id, made);
    labels := CheckedCommitWrites(cfg, Next(cfg, second, Confirm(pid)), pid, id, made.operation, made.observed,
                                  made.preview, made.dry, stamp, container);
    OneStepFirst(cfg, second, Confirm(pid), labels);
    labels := [Confirm(pid)] + labels;
    OneStepFirst(cfg, s, CheckRemote(pid), labels);
    labels := [CheckRemote(pid)] + labels;
  }

  /** The same for exec and attach, which run in a stream slot whenever one of the N - 1 is free. */
  lemma {:induction false} UndisturbedStreamRuns(cfg: Config, s: State, pid: int, id: string, stamp: string,
                                                 container: string)
    returns (labels: seq<Label>)
    requires LedgerSound(cfg, s.ledger) && Undisturbed(cfg, s, pid, id) && s.streams + 1 < cfg.concurrent
    requires s.ledger.created[id].operation.action.Exec? || s.ledger.created[id].operation.action.Attach?
    ensures ValidRun(cfg, s, labels)
    ensures var now, op := Run(cfg, s, labels), s.ledger.created[id].operation;
            At(now, pid, Running(id, op)) && now.procs[pid].stream && now.streams == s.streams + 1
  {
    UndisturbedIsApproved(cfg, s, pid, id);
    labels := ApprovedStreamRuns(cfg, s, pid, id, s.ledger.created[id], stamp, container);
  }

  lemma {:induction false} ApprovedStreamRuns(cfg: Config, s: State, pid: int, id: string, made: Creation,
                                              stamp: string, container: string)
    returns (labels: seq<Label>)
    requires Approved(cfg, s.ledger, id) && made == s.ledger.created[id] && IsRemote(made.operation)
    requires At(s, pid, Committing(made.subject, id, made.code)) && s.streams + 1 < cfg.concurrent
    ensures ValidRun(cfg, s, labels)
    ensures var now := Run(cfg, s, labels);
            && At(now, pid, Running(id, made.operation))
            && now.procs[pid].stream && now.streams == s.streams + 1
  {
    CommitIsSorted(cfg, s, pid, id, made);
    var second := Next(cfg, s, CheckRemote(pid));
    FreeStreamIsTaken(cfg, second, pid, made.subject, id, made.code);
    var third := Next(cfg, second, TakeStream(pid));
    RightCodeConfirms(cfg, third, pid, id, made);
    labels := CheckedStreamRuns(cfg, Next(cfg, third, Confirm(pid)), pid, id, made.operation, made.observed,
                                made.preview, made.dry, stamp, container);
    OneStepFirst(cfg, third, Confirm(pid), labels);
    labels := [Confirm(pid)] + labels;
    OneStepFirst(cfg, second, TakeStream(pid), labels);
    labels := [TakeStream(pid)] + labels;
    OneStepFirst(cfg, s, CheckRemote(pid), labels);
    labels := [CheckRemote(pid)] + labels;
  }

  lemma {:induction false} CheckedStreamRuns(cfg: Config, s: State, pid: int, id: string, op: Operation,
                                             observed: Option<Json>, preview: Option<Verdict>, dry: string,
                                             stamp: string, container: string)
    returns (labels: seq<Label>)
    requires At(s, pid, Rechecking(id, op)) && Ready(cfg, s.ledger.api, op, observed, preview, dry) && IsRemote(op)
    ensures ValidRun(cfg, s, labels)
    ensures var now := Run(cfg, s, labels);
            && At(now, pid, Running(id, op)) && now.streams == s.streams
            && now.procs[pid].stream == s.procs[pid].stream
  {
    RecheckPasses(cfg, s.ledger.api, op, observed, preview, dry, id);
    var checked := Next(cfg, s, Recheck(pid));
    if cfg.safeWrite {
      var again := Revalidate(pid, stamp, container, dry);
      RevalidationPasses(cfg, s.ledger.api, op, observed, preview, dry, id, stamp, container);
      OneStepFirst(cfg, Next(cfg, checked, again), Execute(pid, stamp), []);
      OneStepFirst(cfg, checked, again, [Execute(pid, stamp)] + []);
      labels := [again] + ([Execute(pid, stamp)] + []);
    } else {
      OneStepFirst(cfg, checked, Execute(pid, stamp), []);
      labels := [Execute(pid, stamp)] + [];
    }
    OneStepFirst(cfg, s, Recheck(pid), labels);
    labels := [Recheck(pid)] + labels;
  }

  // ----- an undisturbed plan -----

  lemma {:induction false} AdmittedBelowHalf(cfg: Config, s: State, pid: int, subject: string, asked: Operation)
    requires At(s, pid, Authenticating) && 2 * CountOf(s.identities, s.procs[pid].identity) < cfg.concurrent
    requires TargetName(asked) != ""
    ensures var next := Next(cfg, s, Admit(pid, PlanCall(subject, asked)));
            && next.ledger == s.ledger && pid in next.procs && next.procs[pid].phase.Planning?
            && next.procs[pid].phase.subject == subject
            && next.procs[pid].phase.op == asked.(name := TargetName(asked), targetUID := "", resourceVersion := "",
                                                  expectedAbsent := false, generation := cfg.generation)
  {
    if asked.manifest.Some? {
      MetadataTextIsAt(Object(asked.manifest.value), "name");
    }
  }

  /** The target is open, the call complete, and the server and SafeWrite agree to the dry run. */
  ghost predicate Plannable(cfg: Config, api: Api, op: Operation, stamp: string, container: string, dry: string) {
    && TargetOpen(op, Lookup(api, KeyOf(op))) && Complete(op)
    && var captured := Capture(op, Lookup(api, KeyOf(op)), stamp, container);
       captured.Some? && !IsRemote(op) ==>
         && !Attempt(cfg, api, captured.value).Rejected?
         && SafeAnswer(cfg, captured.value, Lookup(api, KeyOf(op)), Attempt(cfg, api, captured.value), dry)
  }

  lemma {:induction false} NamedKeepsKey(op: Operation)
    requires op.name != "" && Complete(op)
    ensures KeyOf(Named(op)) == KeyOf(op)
  {
    if op.action.Apply? {
      NamedExactly(op);
    }
  }

  lemma {:induction false} PlanIsPreviewed(cfg: Config, s: State, pid: int, subject: string, op: Operation,
                                           stamp: string, container: string, dry: string)
    returns (captured: Operation, next: State, preview: Option<Verdict>)
    requires At(s, pid, Planning(subject, op)) && op.name != ""
    requires Plannable(cfg, s.ledger.api, op, stamp, container, dry)
    ensures CapturedFrom(op, captured, stamp)
    ensures ValidRun(cfg, s, [Observe(pid, stamp, container), DryRun(pid, dry)])
    ensures next == Run(cfg, s, [Observe(pid, stamp, container), DryRun(pid, dry)]) && next.ledger == s.ledger
    ensures At(next, pid, Previewed(subject, captured, Lookup(s.ledger.api, KeyOf(op)), preview, dry))
  {
    var current := Lookup(s.ledger.api, KeyOf(op));
    NamedKeepsKey(op);
    CaptureExactly(op, current, stamp, container);
    captured := Capture(op, current, stamp, container).value;
    CaptureSaysTheSame(op, current, stamp, container);
    preview := if IsRemote(op) then None else Some(Attempt(cfg, s.ledger.api, captured));
    var observed := Next(cfg, s, Observe(pid, stamp, container));
    OneStepFirst(cfg, observed, DryRun(pid, dry), []);
    OneStepFirst(cfg, s, Observe(pid, stamp, container), [DryRun(pid, dry)] + []);
    assert [Observe(pid, stamp, container)] + ([DryRun(pid, dry)] + [])
           == [Observe(pid, stamp, container), DryRun(pid, dry)];
    next := Next(cfg, observed, DryRun(pid, dry));
  }

  /** A plannable operation for which the store has room is stored under its fresh identifier, as it was asked for, for
      the subject that asked. */
  lemma {:induction false} UndisturbedPlanIsStored(cfg: Config, s: State, pid: int, subject: string, op: Operation,
                                                   stamp: string, container: string, dry: string, id: string,
                                                   code: string, encodedBytes: nat, later: int)
    requires At(s, pid, Planning(subject, op)) && op.name != ""
    requires Plannable(cfg, s.ledger.api, op, stamp, container, dry)
    requires id !in s.ledger.seenIds && encodedBytes > 0 && s.ledger.clock <= later
    requires Fits(cfg.budget, Unexpired(s.ledger.plans, s.ledger.clock), subject, 4 * encodedBytes)
    ensures var labels := [Observe(pid, stamp, container), DryRun(pid, dry)];
            && ValidRun(cfg, s, labels)
            && Enabled(cfg, Run(cfg, s, labels), StorePlan(pid, id, code, encodedBytes, later))
            && var g := Next(cfg, Run(cfg, s, labels), StorePlan(pid, id, code, encodedBytes, later)).ledger;
               && id in g.plans && id in g.created && CapturedFrom(op, g.created[id].operation, stamp)
               && IsNewPlan(g.plans[id], g.created[id].operation, subject, id, code, later)
               && g.created[id].observed == Lookup(s.ledger.api, KeyOf(op))
  {
    var captured, next, preview := PlanIsPreviewed(cfg, s, pid, subject, op, stamp, container, dry);
  }

  // ----- a request that returns -----

  /** What is left once a request has gone: every other request, and exactly the slots it did not hold. */
  ghost predicate ReleasedBy(s: State, pid: int, later: State)
    requires pid in s.procs
  {
    var proc := s.procs[pid];
    && later.procs == s.procs - {pid} && later.ledger == s.ledger
    && later.streams == s.streams - One(proc.stream)
    && forall identity ::
         CountOf(later.identities, identity) ==
         CountOf(s.identities, identity) - One(proc.admitted && identity == proc.identity)
  }

  /** A returning request gives back its stream, its identity slot and its request slot. */
  lemma {:induction false} ReturningReleasesSlots(cfg: Config, s: State, pid: int) returns (labels: seq<Label>)
    requires SlotsCounted(cfg, s.streams, s.identities, s.procs) && At(s, pid, Returning)
    ensures ValidRun(cfg, s, labels) && ReleasedBy(s, pid, Run(cfg, s, labels))
  {
    var proc := s.procs[pid];
    assert IdentityCounted(cfg, s.identities, s.procs, proc.identity);
    if proc.admitted {
      assert pid in AdmittedAs(s.procs, proc.identity);
    }
    labels := Releases(cfg, s, pid);
  }

  lemma {:induction false} Releases(cfg: Config, s: State, pid: int) returns (labels: seq<Label>)
    requires At(s, pid, Returning)
    requires s.procs[pid].admitted ==> CountOf(s.identities, s.procs[pid].identity) > 0
    ensures ValidRun(cfg, s, labels) && ReleasedBy(s, pid, Run(cfg, s, labels))
    decreases One(s.procs[pid].stream) + One(s.procs[pid].admitted)
  {
    var next := Next(cfg, s, Unwind(pid));
    if s.procs[pid].stream || s.procs[pid].admitted {
      labels := Releases(cfg, next, pid);
      assert next.procs - {pid} == s.procs - {pid};
    } else {
      labels := [];
    }
    OneStepFirst(cfg, s, Unwind(pid), labels);
    labels := [Unwind(pid)] + labels;
  }
}
