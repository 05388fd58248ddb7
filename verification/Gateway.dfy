/** The plan/commit protocol as a step system (operations.go, planstore.go, admission.go, auth.go).

    Every mutex section and every API call is one atomic step.  Requests interleave freely with each other,
    with the clock and with other writers of the cluster.  Identifiers are fresh, the clock is monotone and the
    API server judges each request against the object it holds at that instant.  A request may return
    at any point: denials, timeouts, failed reviews and SafeWrite's refusals of a payload are all of that kind.  The
    SafeWrite walk over a transition is a step's own guard. */
module Gateway {
  import opened JsonValues
  import opened Operations
  import opened Patches
  import opened Execution
  import opened PlanStores
  import opened Admission
  import SafeWrite

  // ----- state -----

  datatype Config = Config(
    budget: Budget, concurrent: nat, generation: int, server: Server,
    safeWrite: bool, casing: SafeWrite.Casing, position: nat -> string)

  /** The live objects, and every object version that was ever stored. */
  datatype Api = Api(objects: map<Key, Json>, versions: map<string, (Key, Json)>)

  datatype Phase =
    | Authenticating
    | Planning(subject: string, op: Operation)
    | Observed(subject: string, op: Operation, observed: Option<Json>)
    | Previewed(subject: string, op: Operation, observed: Option<Json>, preview: Option<Verdict>, dry: string)
    | Committing(subject: string, id: string, code: string)
    | NeedsStream(subject: string, id: string, code: string)
    | Confirming(subject: string, id: string, code: string)
    | Rechecking(id: string, op: Operation)
    | Checked(id: string, op: Operation, validation: Option<Operation>)
    | Running(id: string, op: Operation)
    | OpeningRead
    | Reading
    | Streaming
    | Returning

  /** A request holding a semaphore slot, perhaps an identity slot, perhaps a stream slot. */
  datatype Proc = Proc(identity: string, admitted: bool, stream: bool, phase: Phase)

  datatype ToolCall =
    | PlanCall(subject: string, op: Operation)
    | CommitCall(subject: string, id: string, code: string)
    | StreamCall
    | ShortCall

  datatype Creation = Creation(
    operation: Operation, subject: string, code: string, expiresAt: int,
    observed: Option<Json>, preview: Option<Verdict>, dry: string)

  datatype Consumption = Consumption(id: string, subject: string, code: string, operation: Operation, at: int)

  /** A persisted write: the object it found, the server's verdict, and the object it left. */
  datatype Write = Write(
    id: string, key: Key, before: Option<Json>, verdict: Verdict, stamp: string, after: Option<Json>)

  /** Plans, clock and cluster, with the history of what was created, compared, consumed and written. */
  datatype Ledger = Ledger(
    plans: Plans, clock: int, api: Api,
    seenIds: set<string>, created: map<string, Creation>, compared: map<string, nat>,
    consumed: seq<Consumption>, writes: seq<Write>)

  type Requests = map<int, Proc>

  datatype State = State(ledger: Ledger, streams: int, identities: Counts, procs: Requests)

  datatype Label =
    | Tick(now: int)
    | Outside(key: Key, after: Option<Json>)
    | Enter(pid: int, identity: string)
    | Admit(pid: int, call: ToolCall)
    | Observe(pid: int, stamp: string, container: string)
    | DryRun(pid: int, dry: string)
    | StorePlan(pid: int, id: string, code: string, encodedBytes: nat, later: int)
    | CheckRemote(pid: int)
    | TakeStream(pid: int)
    | Confirm(pid: int)
    | Recheck(pid: int)
    | Revalidate(pid: int, stamp: string, container: string, dry: string)
    | Execute(pid: int, stamp: string)
    | Return(pid: int)
    | Unwind(pid: int)

  // ----- the cluster -----

  function Lookup(api: Api, key: Key): Option<Json> {
    if key in api.objects then Some(api.objects[key]) else None
  }

  /** A writer removes an object, leaves it as it is, or stores it under a version never used before. */
  predicate Writable(api: Api, key: Key, after: Option<Json>) {
    match after
    case None => true
    case Some(content) =>
      || (VersionOf(content) != "" && VersionOf(content) !in api.versions)
      || Lookup(api, key) == after
  }

  function Put(api: Api, key: Key, after: Option<Json>): Api {
    match after
    case None => api.(objects := api.objects - {key})
    case Some(content) => Api(api.objects[key := content], api.versions[VersionOf(content) := (key, content)])
  }

  /** checkOperationPreconditions. */
  predicate PreconditionsHold(api: Api, op: Operation) {
    var current := Lookup(api, KeyOf(op));
    if op.expectedAbsent then current.None?
    else op.targetUID == "" ||
         (current.Some? && UidOf(current.value) == op.targetUID && VersionOf(current.value) == op.resourceVersion)
  }

  // ----- steps -----

  function StartOf(cfg: Config, call: ToolCall): Phase {
    match call
    case PlanCall(subject, op) =>
      if !op.action.Create? && DefaultName(op) == "" then Returning
      else Planning(subject, op.(name := DefaultName(op), targetUID := "", resourceVersion := "",
                                 expectedAbsent := false, generation := cfg.generation))
    case CommitCall(subject, id, code) => Committing(subject, id, code)
    case StreamCall => OpeningRead
    case ShortCall => Reading
  }

  function Mentioned(call: ToolCall): set<string> {
    if call.CommitCall? then {call.id} else {}
  }

  function Go(s: State, pid: int, phase: Phase): State
    requires pid in s.procs
  {
    s.(procs := s.procs[pid := s.procs[pid].(phase := phase)])
  }

  function AdmitStep(cfg: Config, s: State, pid: int, call: ToolCall): State
    requires pid in s.procs
  {
    var proc := s.procs[pid];
    if CountOf(s.identities, proc.identity) < PerIdentity(cfg.concurrent) then
      s.(identities := Acquire(s.identities, proc.identity),
         procs := s.procs[pid := proc.(admitted := true, phase := StartOf(cfg, call))],
         ledger := s.ledger.(seenIds := s.ledger.seenIds + Mentioned(call)))
    else Go(s, pid, Returning)
  }

  function ObservePhase(api: Api, phase: Phase, stamp: string, container: string): Phase
    requires phase.Planning?
  {
    var current := Lookup(api, KeyOf(Named(phase.op)));
    match Capture(phase.op, current, stamp, container)
    case None => Returning
    case Some(op) => Observed(phase.subject, op, current)
  }

  /** The verdict the server gives a captured operation now. */
  function Attempt(cfg: Config, api: Api, op: Operation): Verdict {
    match RequestFor(op)
    case None => Rejected
    case Some(request) => Judge(cfg.server, KeyOf(op), Lookup(api, KeyOf(op)), request)
  }

  /** The actions whose dry-run answer SafeWrite compares with the object it found. */
  predicate IsTransition(op: Operation) {
    op.action.Apply? || op.action.Patch? || op.action.Restart? || op.action.Update?
  }

  /** What SafeWrite asks of a dry run: the object the server answers with is an accepted transition from the one that
      was read. */
  predicate SafeAnswer(cfg: Config, op: Operation, current: Option<Json>, verdict: Verdict, dry: string) {
    cfg.safeWrite && IsTransition(op) && current.Some? ==>
      var answer := cfg.server.persist(current, verdict, dry);
      answer.Some? && SafeWrite.Accepts(cfg.casing, cfg.position, current.value, answer.value, "")
  }

  function DryRunPhase(cfg: Config, api: Api, phase: Phase, dry: string): Phase
    requires phase.Observed?
  {
    var Observed(subject, op, observed) := phase;
    var verdict := Attempt(cfg, api, op);
    if IsRemote(op) then Previewed(subject, op, observed, None, dry)
    else if verdict.Rejected? || !SafeAnswer(cfg, op, observed, verdict, dry) then Returning
    else Previewed(subject, op, observed, Some(verdict), dry)
  }

  ghost function StoreLedger(cfg: Config, g: Ledger, phase: Phase, id: string, code: string, encodedBytes: nat,
                             later: int): Ledger
    requires phase.Previewed?
  {
    var (plans, result) := CreatePlan(cfg.budget, g.plans, id, code, phase.subject, phase.op,
                                      encodedBytes * SIZE_SAFETY_FACTOR, g.clock, later);
    match result
    case PlanCapacity => g.(plans := plans, clock := later)
    case Created(expiresAt) =>
      var made := Creation(phase.op, phase.subject, code, expiresAt, phase.observed, phase.preview, phase.dry);
      g.(plans := plans, clock := later, seenIds := g.seenIds + {id},
         compared := g.compared[id := 0], created := g.created[id := made])
  }

  function CheckRemotePhase(plans: Plans, phase: Phase): Phase
    requires phase.Committing?
  {
    if RemotePlan(plans, phase.id, phase.subject) then NeedsStream(phase.subject, phase.id, phase.code)
    else Confirming(phase.subject, phase.id, phase.code)
  }

  function TakeStreamStep(cfg: Config, s: State, pid: int): State
    requires pid in s.procs && (s.procs[pid].phase.NeedsStream? || s.procs[pid].phase.OpeningRead?)
  {
    var proc := s.procs[pid];
    if s.streams < StreamCapacity(cfg.concurrent) then
      var phase := if proc.phase.OpeningRead? then Streaming
                   else Confirming(proc.phase.subject, proc.phase.id, proc.phase.code);
      s.(streams := s.streams + 1, procs := s.procs[pid := proc.(stream := true, phase := phase)])
    else Go(s, pid, Returning)
  }

  function ComparedTimes(g: Ledger, id: string): nat {
    if id in g.compared then g.compared[id] else 0
  }

  function ConfirmLedger(g: Ledger, phase: Phase): Ledger
    requires phase.Confirming?
  {
    var Confirming(subject, id, code) := phase;
    var (plans, result) := ConsumePlan(g.plans, id, subject, code, g.clock);
    var counted := if Compares(g.plans, id, subject, code, g.clock)
                   then g.compared[id := ComparedTimes(g, id) + 1] else g.compared;
    match result
    case Consumed(op) =>
      g.(plans := plans, compared := counted, consumed := g.consumed + [Consumption(id, subject, code, op, g.clock)])
    case _ => g.(plans := plans, compared := counted)
  }

  function ConfirmPhase(g: Ledger, phase: Phase): Phase
    requires phase.Confirming?
  {
    match ConsumePlan(g.plans, phase.id, phase.subject, phase.code, g.clock).1
    case Consumed(op) => Rechecking(phase.id, op)
    case _ => Returning
  }

  function RecheckPhase(cfg: Config, api: Api, phase: Phase): Phase
    requires phase.Rechecking?
  {
    if phase.op.generation == cfg.generation && PreconditionsHold(api, phase.op)
    then Checked(phase.id, phase.op, None) else Returning
  }

  /** SafeWrite previews a copy of the operation again; what it captures is not what is executed. */
  function RevalidatePhase(cfg: Config, api: Api, phase: Phase, stamp: string, container: string, dry: string): Phase
    requires phase.Checked?
  {
    var current := Lookup(api, KeyOf(Named(phase.op)));
    match Capture(phase.op, current, stamp, container)
    case None => Returning
    case Some(copy) =>
      var verdict := Attempt(cfg, api, copy);
      if !IsRemote(copy) && (verdict.Rejected? || !SafeAnswer(cfg, copy, current, verdict, dry)) then Returning
      else Checked(phase.id, phase.op, Some(copy))
  }

  /** The operation is neither a stream nor refused by the server. */
  predicate Accepted(cfg: Config, api: Api, op: Operation) {
    !IsRemote(op) && !Attempt(cfg, api, op).Rejected?
  }

  /** What an accepted operation leaves behind. */
  function Persisted(cfg: Config, api: Api, op: Operation, stamp: string): Option<Json> {
    cfg.server.persist(Lookup(api, KeyOf(op)), Attempt(cfg, api, op), stamp)
  }

  /** An accepted operation stores an object under a new version, or removes one. */
  predicate Persistable(cfg: Config, api: Api, op: Operation, stamp: string) {
    Accepted(cfg, api, op) ==>
      && Writable(api, KeyOf(op), Persisted(cfg, api, op, stamp))
      && (Attempt(cfg, api, op).Stored? ==> Persisted(cfg, api, op, stamp).Some?)
  }

  function ExecuteLedger(cfg: Config, g: Ledger, phase: Phase, stamp: string): Ledger
    requires phase.Checked?
  {
    if !Accepted(cfg, g.api, phase.op) then g
    else
      var key, after := KeyOf(phase.op), Persisted(cfg, g.api, phase.op, stamp);
      var w := Write(phase.id, key, Lookup(g.api, key), Attempt(cfg, g.api, phase.op), stamp, after);
      g.(api := Put(g.api, key, after), writes := g.writes + [w])
  }

  function ExecutePhase(phase: Phase): Phase
    requires phase.Checked?
  {
    if IsRemote(phase.op) then Running(phase.id, phase.op) else Returning
  }

  /** Deferred releases run innermost first: the stream, then the identity slot, then the request slot. */
  function UnwindStep(s: State, pid: int): State
    requires pid in s.procs
  {
    var proc := s.procs[pid];
    if proc.stream then s.(streams := s.streams - 1, procs := s.procs[pid := proc.(stream := false)])
    else if proc.admitted then
      s.(identities := Release(s.identities, proc.identity), procs := s.procs[pid := proc.(admitted := false)])
    else s.(procs := s.procs - {pid})
  }

  predicate Enabled(cfg: Config, s: State, l: Label) {
    match l
    case Tick(now) => s.ledger.clock <= now
    case Outside(key, after) => Writable(s.ledger.api, key, after)
    case Enter(pid, _) => pid !in s.procs && |s.procs| < cfg.concurrent
    case Admit(pid, _) => pid in s.procs && s.procs[pid].phase.Authenticating?
    case Observe(pid, _, _) => pid in s.procs && s.procs[pid].phase.Planning?
    case DryRun(pid, _) => pid in s.procs && s.procs[pid].phase.Observed?
    case StorePlan(pid, id, _, encodedBytes, later) =>
      && pid in s.procs && s.procs[pid].phase.Previewed?
      && id !in s.ledger.seenIds && encodedBytes > 0 && s.ledger.clock <= later
    case CheckRemote(pid) => pid in s.procs && s.procs[pid].phase.Committing?
    case TakeStream(pid) => pid in s.procs && (s.procs[pid].phase.NeedsStream? || s.procs[pid].phase.OpeningRead?)
    case Confirm(pid) => pid in s.procs && s.procs[pid].phase.Confirming?
    case Recheck(pid) => pid in s.procs && s.procs[pid].phase.Rechecking?
    case Revalidate(pid, _, _, _) => pid in s.procs && s.procs[pid].phase.Checked? && cfg.safeWrite
    case Execute(pid, stamp) =>
      && pid in s.procs && s.procs[pid].phase.Checked?
      && (cfg.safeWrite ==> s.procs[pid].phase.validation.Some?)
      && Persistable(cfg, s.ledger.api, s.procs[pid].phase.op, stamp)
    case Return(pid) => pid in s.procs
    case Unwind(pid) => pid in s.procs && s.procs[pid].phase.Returning?
  }

  ghost function Next(cfg: Config, s: State, l: Label): State
    requires Enabled(cfg, s, l)
  {
    var g := s.ledger;
    match l
    case Tick(now) => s.(ledger := g.(clock := now))
    case Outside(key, after) => s.(ledger := g.(api := Put(g.api, key, after)))
    case Enter(pid, identity) => s.(procs := s.procs[pid := Proc(identity, false, false, Authenticating)])
    case Admit(pid, call) => AdmitStep(cfg, s, pid, call)
    case Observe(pid, stamp, container) => Go(s, pid, ObservePhase(g.api, s.procs[pid].phase, stamp, container))
    case DryRun(pid, dry) => Go(s, pid, DryRunPhase(cfg, g.api, s.procs[pid].phase, dry))
    case StorePlan(pid, id, code, encodedBytes, later) =>
      Go(s, pid, Returning).(ledger := StoreLedger(cfg, g, s.procs[pid].phase, id, code, encodedBytes, later))
    case CheckRemote(pid) => Go(s, pid, CheckRemotePhase(g.plans, s.procs[pid].phase))
    case TakeStream(pid) => TakeStreamStep(cfg, s, pid)
    case Confirm(pid) =>
      Go(s, pid, ConfirmPhase(g, s.procs[pid].phase)).(ledger := ConfirmLedger(g, s.procs[pid].phase))
    case Recheck(pid) => Go(s, pid, RecheckPhase(cfg, g.api, s.procs[pid].phase))
    case Revalidate(pid, stamp, container, dry) =>
      Go(s, pid, RevalidatePhase(cfg, g.api, s.procs[pid].phase, stamp, container, dry))
    case Execute(pid, stamp) =>
      Go(s, pid, ExecutePhase(s.procs[pid].phase)).(ledger := ExecuteLedger(cfg, g, s.procs[pid].phase, stamp))
    case Return(pid) => Go(s, pid, Returning)
    case Unwind(pid) => UnwindStep(s, pid)
  }

  /** No plans, no requests, no history; the cluster may already hold anything. */
  ghost predicate Initial(s: State) {
    && s.streams == 0 && s.identities == map[] && s.procs == map[]
    && s.ledger == Ledger(map[], s.ledger.clock, s.ledger.api, {}, map[], map[], [], [])
    && ApiConsistent(s.ledger.api)
  }

  ghost predicate ValidRun(cfg: Config, s: State, labels: seq<Label>)
    decreases |labels|
  {
    labels == [] || (Enabled(cfg, s, labels[0]) && ValidRun(cfg, Next(cfg, s, labels[0]), labels[1..]))
  }

  ghost function Run(cfg: Config, s: State, labels: seq<Label>): State
    requires ValidRun(cfg, s, labels)
    decreases |labels|
  {
    if labels == [] then s else Run(cfg, Next(cfg, s, labels[0]), labels[1..])
  }

  // ----- invariant: slots -----

  function Holders(procs: Requests): set<int> {
    set pid | pid in procs && procs[pid].stream
  }

  function AdmittedAs(procs: Requests, identity: string): set<int> {
    set pid | pid in procs && procs[pid].admitted && procs[pid].identity == identity
  }

  /** An identity's counter is the number of its admitted requests, with no entry at zero. */
  ghost predicate IdentityCounted(cfg: Config, identities: Counts, procs: Requests, identity: string) {
    && CountOf(identities, identity) == |AdmittedAs(procs, identity)| <= PerIdentity(cfg.concurrent)
    && (identity in identities ==> identities[identity] > 0)
  }

  ghost predicate SlotsCounted(cfg: Config, streams: int, identities: Counts, procs: Requests) {
    && |procs| <= cfg.concurrent
    && streams == |Holders(procs)| <= StreamCapacity(cfg.concurrent)
    && forall identity :: IdentityCounted(cfg, identities, procs, identity)
  }

  // ----- invariant: the ledger -----

  ghost predicate ApiConsistent(api: Api) {
    forall key :: key in api.objects ==> VersionRecorded(api, key, api.objects[key])
  }

  ghost predicate VersionRecorded(api: Api, key: Key, content: Json) {
    var version := VersionOf(content);
    version != "" && version in api.versions && api.versions[version] == (key, content)
  }

  /** A stored plan still says what was created, and its failures are the codes compared so far. */
  ghost predicate PlanRecorded(g: Ledger, id: string) {
    && id in g.plans && id in g.created && id in g.compared
    && var plan, made := g.plans[id], g.created[id];
       && plan.operation == made.operation && plan.subject == made.subject && plan.expiresAt == made.expiresAt
       && plan.hash == ConfirmationHash(id, made.code)
       && plan.failures == g.compared[id] < MAX_CONFIRMATION_ATTEMPTS
  }

  ghost predicate Books(g: Ledger) {
    && (forall id :: id in g.plans ==> PlanRecorded(g, id))
    && g.created.Keys == g.compared.Keys <= g.seenIds
    && (forall id :: id in g.compared ==> g.compared[id] <= MAX_CONFIRMATION_ATTEMPTS)
  }

  ghost predicate ConsumptionRecorded(g: Ledger, c: Consumption) {
    && c.id in g.created && c.id !in g.plans
    && var made := g.created[c.id];
       c.subject == made.subject && c.code == made.code && c.operation == made.operation && c.at <= made.expiresAt
  }

  ghost predicate Consumptions(g: Ledger) {
    && (forall i :: 0 <= i < |g.consumed| ==> ConsumptionRecorded(g, g.consumed[i]))
    && (forall i, j :: 0 <= i < j < |g.consumed| ==> g.consumed[i].id != g.consumed[j].id)
  }

  /** Absence is expected only of a create, and an exec has a command. */
  predicate WellPlanned(op: Operation) {
    (op.expectedAbsent ==> op.action.Create?) && (op.action.Exec? ==> op.command != [])
  }

  /** The operation is bound to an object version the cluster really held under the operation's key. */
  ghost predicate Bound(api: Api, op: Operation, observed: Option<Json>) {
    && BoundTo(op, observed) && WellPlanned(op)
    && (observed.Some? ==> op.resourceVersion != "" && VersionRecorded(api, KeyOf(op), observed.value))
  }

  /** The preview is the server's answer to the stored operation at the observed version, and SafeWrite accepted it. */
  ghost predicate PreviewOf(cfg: Config, op: Operation, observed: Option<Json>, preview: Option<Verdict>, dry: string) {
    if IsRemote(op) then preview.None?
    else
      && RequestFor(op).Some?
      && preview == Some(Judge(cfg.server, KeyOf(op), observed, RequestFor(op).value))
      && !preview.value.Rejected? && SafeAnswer(cfg, op, observed, preview.value, dry)
  }

  ghost predicate CreationBound(cfg: Config, api: Api, made: Creation) {
    && Bound(api, made.operation, made.observed)
    && PreviewOf(cfg, made.operation, made.observed, made.preview, made.dry)
  }

  ghost predicate Creations(cfg: Config, g: Ledger) {
    forall id :: id in g.created ==> CreationBound(cfg, g.api, g.created[id])
  }

  ghost predicate ConsumedId(g: Ledger, id: string) {
    exists i :: 0 <= i < |g.consumed| && g.consumed[i].id == id
  }

  ghost predicate WrittenId(g: Ledger, id: string) {
    exists i :: 0 <= i < |g.writes| && g.writes[i].id == id
  }

  /** A persisted write replaced exactly the object its plan observed, on exactly the verdict that was previewed. */
  ghost predicate WriteRecorded(g: Ledger, w: Write) {
    && w.id in g.created && ConsumedId(g, w.id)
    && var made := g.created[w.id];
       w.key == KeyOf(made.operation) && w.before == made.observed && Some(w.verdict) == made.preview
  }

  ghost predicate Writes(g: Ledger) {
    && (forall i :: 0 <= i < |g.writes| ==> WriteRecorded(g, g.writes[i]))
    && (forall i, j :: 0 <= i < j < |g.writes| ==> g.writes[i].id != g.writes[j].id)
  }

  /** Every object a write left is what the server makes of its verdict on the object it replaced. */
  ghost predicate StoredAsJudged(cfg: Config, writes: seq<Write>) {
    forall i :: 0 <= i < |writes| ==>
      writes[i].after == cfg.server.persist(writes[i].before, writes[i].verdict, writes[i].stamp)
  }

  ghost predicate LedgerSound(cfg: Config, g: Ledger) {
    && Books(g) && WithinBudget(cfg.budget, g.plans) && Consumptions(g)
    && ApiConsistent(g.api) && Creations(cfg, g) && Writes(g) && StoredAsJudged(cfg, g.writes)
  }

  // ----- invariant: requests -----

  ghost predicate WorkRecorded(g: Ledger, id: string, op: Operation, stream: bool) {
    id in g.created && op == g.created[id].operation && ConsumedId(g, id) && (IsRemote(op) ==> stream)
  }

  ghost predicate ProcSound(cfg: Config, g: Ledger, proc: Proc) {
    match proc.phase
    case Authenticating => !proc.admitted && !proc.stream
    case Planning(_, op) => (op.action.Create? || op.name != "") && !op.expectedAbsent
    case Observed(_, op, observed) => Bound(g.api, op, observed)
    case Previewed(_, op, observed, preview, dry) =>
      Bound(g.api, op, observed) && PreviewOf(cfg, op, observed, preview, dry)
    case Committing(_, id, _) => id in g.seenIds && !proc.stream
    case NeedsStream(_, id, _) => id in g.seenIds && !proc.stream
    case OpeningRead => !proc.stream
    case Streaming => proc.stream
    case Confirming(subject, id, _) => id in g.seenIds && (proc.stream || !RemotePlan(g.plans, id, subject))
    case Rechecking(id, op) => WorkRecorded(g, id, op, proc.stream)
    case Checked(id, op, _) => WorkRecorded(g, id, op, proc.stream)
    case Running(id, op) => WorkRecorded(g, id, op, proc.stream)
    case _ => true
  }

  /** The plan a request is about to execute, if it has consumed one and not executed it yet. */
  function Pending(proc: Proc): Option<string> {
    match proc.phase
    case Rechecking(id, _) => Some(id)
    case Checked(id, _, _) => Some(id)
    case _ => None
  }

  ghost predicate OnlyPending(g: Ledger, procs: Requests, pid: int, id: string) {
    && !WrittenId(g, id)
    && forall other :: other in procs && other != pid ==> Pending(procs[other]) != Some(id)
  }

  ghost predicate ProcsSound(cfg: Config, g: Ledger, procs: Requests) {
    forall pid :: pid in procs ==>
      && ProcSound(cfg, g, procs[pid])
      && (Pending(procs[pid]).Some? ==> OnlyPending(g, procs, pid, Pending(procs[pid]).value))
  }

  ghost predicate Inv(cfg: Config, s: State) {
    && SlotsCounted(cfg, s.streams, s.identities, s.procs)
    && LedgerSound(cfg, s.ledger)
    && ProcsSound(cfg, s.ledger, s.procs)
  }
}
