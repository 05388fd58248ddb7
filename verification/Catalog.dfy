/** The single-flight capability catalog (catalogCache.list in catalog.go) over the handle table.

    Each mutex section is one step; discovery, encoding and the deferred close are separate steps, and any number
    of callers interleave.  Discovery results, cancellation and the clock come from outside. */
module Catalog {
  import opened JsonValues
  import opened Capabilities

  const CACHE_SECONDS := 300
  const BACKOFF_SECONDS := 5

  datatype Result = Items(items: seq<Capability>) | Error

  datatype Phase =
    | Calling
    | Waiting(channel: int)
    | Refreshing(channel: int)
    | Discovering(channel: int)
    | Building(channel: int, complete: bool, source: seq<string>, done: seq<Capability>)
    | Finishing(channel: int, result: Result, stale: bool)
    | Returned(result: Result)

  /** A failed discovery may still have found some resources, and those perhaps no capability at all. */
  datatype Outcome =
    | Cancelled
    | Failed(partial: Option<seq<string>>)
    | Complete(found: seq<string>)

  datatype Event = Started(at: int) | FailedAt(at: int)

  /** The last two fields are history: discovery starts and failures in order, and complete discoveries. */
  datatype Cache = Cache(
    now: int, loadedAt: Option<int>, items: seq<Capability>, previous: seq<Capability>,
    lastPartial: Option<seq<Capability>>, retryAt: Option<int>, refreshing: Option<int>, closed: set<int>,
    handles: Handles, events: seq<Event>, completes: seq<seq<string>>)

  type Callers = map<int, Phase>

  datatype State = State(cache: Cache, callers: Callers)

  datatype Label =
    | Tick(now: int)
    | Call(pid: int)
    | Cancel(pid: int)
    | Look(pid: int, channel: int)
    | Wake(pid: int)
    | Begin(pid: int)
    | Discover(pid: int, outcome: Outcome)
    | EncodeOne(pid: int)
    | Publish(pid: int, order: seq<Capability>)
    | Close(pid: int)

  // ----- steps -----

  predicate Fresh(c: Cache) {
    c.loadedAt.Some? && c.now - c.loadedAt.value < CACHE_SECONDS
  }

  predicate BackingOff(c: Cache) {
    c.retryAt.Some? && c.now < c.retryAt.value
  }

  function BackoffResult(c: Cache): Result {
    if c.loadedAt.Some? then Items(c.items)
    else if c.lastPartial.Some? then Items(c.lastPartial.value)
    else Error
  }

  function LookPhase(c: Cache, channel: int): Phase {
    if Fresh(c) then Returned(Items(c.items))
    else if BackingOff(c) then Returned(BackoffResult(c))
    else if c.refreshing.Some? then Waiting(c.refreshing.value)
    else Refreshing(channel)
  }

  function LookCache(c: Cache, channel: int): Cache {
    if LookPhase(c, channel).Refreshing? then c.(refreshing := Some(channel)) else c
  }

  function DiscoverPhase(c: Cache, channel: int, outcome: Outcome): Phase {
    match outcome
    case Cancelled => Finishing(channel, Error, false)
    case Failed(partial) =>
      if c.loadedAt.Some? then Finishing(channel, Items(c.items), true)
      else if partial.None? then Finishing(channel, Error, false)
      else Building(channel, false, partial.value, [])
    case Complete(found) => Building(channel, true, found, [])
  }

  function DiscoverCache(c: Cache, outcome: Outcome): Cache {
    match outcome
    case Cancelled => c
    case Failed(_) =>
      c.(retryAt := Some(c.now + BACKOFF_SECONDS), lastPartial := None, events := c.events + [FailedAt(c.now)])
    case Complete(found) => c.(completes := c.completes + [found])
  }

  function EncodePhase(coding: Coding, c: Cache, phase: Phase): Phase
    requires phase.Building? && |phase.done| < |phase.source|
  {
    var payload := phase.source[|phase.done|];
    match Encode(coding, c.handles, payload).1
    case None => Finishing(phase.channel, Error, false)
    case Some(id) => phase.(done := phase.done + [Capability(id, payload)])
  }

  function EncodeCache(coding: Coding, c: Cache, phase: Phase): Cache
    requires phase.Building? && |phase.done| < |phase.source|
  {
    c.(handles := Encode(coding, c.handles, phase.source[|phase.done|]).0)
  }

  function PublishCache(c: Cache, complete: bool, order: seq<Capability>): Cache {
    if complete then
      c.(handles := Retain(c.handles, order + c.items), previous := c.items, items := order,
         loadedAt := Some(c.now), retryAt := None, lastPartial := None)
    else c.(lastPartial := Some(order))
  }

  function CancelPhase(phase: Phase): Phase {
    match phase
    case Calling => Returned(Error)
    case Waiting(_) => Returned(Error)
    case Refreshing(channel) => Finishing(channel, Error, false)
    case _ => phase
  }

  predicate Enabled(s: State, l: Label) {
    match l
    case Tick(now) => s.cache.now <= now
    case Call(pid) => pid !in s.callers
    case Cancel(pid) => pid in s.callers
    case Look(pid, channel) =>
      pid in s.callers && s.callers[pid].Calling? && channel !in s.cache.closed && s.cache.refreshing != Some(channel)
    case Wake(pid) => pid in s.callers && s.callers[pid].Waiting? && s.callers[pid].channel in s.cache.closed
    case Begin(pid) => pid in s.callers && s.callers[pid].Refreshing?
    case Discover(pid, _) => pid in s.callers && s.callers[pid].Discovering?
    case EncodeOne(pid) =>
      pid in s.callers && s.callers[pid].Building? && |s.callers[pid].done| < |s.callers[pid].source|
    case Publish(pid, order) =>
      pid in s.callers && s.callers[pid].Building? && |s.callers[pid].done| == |s.callers[pid].source|
      && multiset(order) == multiset(s.callers[pid].done)
    case Close(pid) => pid in s.callers && s.callers[pid].Finishing?
  }

  function Go(s: State, pid: int, cache: Cache, phase: Phase): State {
    State(cache, s.callers[pid := phase])
  }

  function Next(coding: Coding, s: State, l: Label): State
    requires Enabled(s, l)
  {
    var c := s.cache;
    match l
    case Tick(now) => s.(cache := c.(now := now))
    case Call(pid) => Go(s, pid, c, Calling)
    case Cancel(pid) => Go(s, pid, c, CancelPhase(s.callers[pid]))
    case Look(pid, channel) => Go(s, pid, LookCache(c, channel), LookPhase(c, channel))
    case Wake(pid) => Go(s, pid, c, Calling)
    case Begin(pid) => Go(s, pid, c.(events := c.events + [Started(c.now)]), Discovering(s.callers[pid].channel))
    case Discover(pid, outcome) =>
      Go(s, pid, DiscoverCache(c, outcome), DiscoverPhase(c, s.callers[pid].channel, outcome))
    case EncodeOne(pid) => Go(s, pid, EncodeCache(coding, c, s.callers[pid]), EncodePhase(coding, c, s.callers[pid]))
    case Publish(pid, order) =>
      Go(s, pid, PublishCache(c, s.callers[pid].complete, order),
         Finishing(s.callers[pid].channel, Items(order), false))
    case Close(pid) =>
      Go(s, pid, c.(refreshing := None, closed := c.closed + {s.callers[pid].channel}), Returned(s.callers[pid].result))
  }

  predicate Initial(s: State) {
    s.callers == map[] && s.cache == Cache(s.cache.now, None, [], [], None, None, None, {}, map[], [], [])
  }

  predicate ValidRun(coding: Coding, s: State, labels: seq<Label>)
    decreases |labels|
  {
    labels == [] || (Enabled(s, labels[0]) && ValidRun(coding, Next(coding, s, labels[0]), labels[1..]))
  }

  function Run(coding: Coding, s: State, labels: seq<Label>): State
    requires ValidRun(coding, s, labels)
    decreases |labels|
  {
    if labels == [] then s else Run(coding, Next(coding, s, labels[0]), labels[1..])
  }

  // ----- invariant: one refresh, and nobody waits for nothing -----

  /** The channel of the refresh a caller is running. */
  function Running(phase: Phase): Option<int> {
    match phase
    case Refreshing(channel) => Some(channel)
    case Discovering(channel) => Some(channel)
    case Building(channel, _, _, _) => Some(channel)
    case Finishing(channel, _, _) => Some(channel)
    case _ => None
  }

  ghost predicate CallerInFlight(c: Cache, callers: Callers, pid: int) {
    pid in callers ==>
      && (Running(callers[pid]).Some? ==>
            && c.refreshing == Running(callers[pid])
            && forall other :: other in callers && other != pid ==> Running(callers[other]).None?)
      && (callers[pid].Waiting? ==> callers[pid].channel in c.closed || c.refreshing == Some(callers[pid].channel))
  }

  ghost predicate SingleFlight(c: Cache, callers: Callers) {
    && (forall pid :: CallerInFlight(c, callers, pid))
    && (c.refreshing.Some? ==>
          c.refreshing.value !in c.closed && exists pid :: pid in callers && Running(callers[pid]) == c.refreshing)
  }

  // ----- invariant: snapshots and handles -----

  ghost predicate AllDecode(handles: Handles, items: seq<Capability>) {
    forall i :: 0 <= i < |items| ==> DecodeId(handles, items[i].id) == Some(items[i])
  }

  /** The list is, up to order, what one complete discovery found. */
  ghost predicate BuiltFrom(items: seq<Capability>, built: seq<Capability>, source: seq<string>) {
    && multiset(items) == multiset(built) && |built| == |source|
    && forall k :: 0 <= k < |built| ==> built[k].payload == source[k]
  }

  ghost predicate FromComplete(completes: seq<seq<string>>, items: seq<Capability>) {
    exists i, built :: 0 <= i < |completes| && BuiltFrom(items, built, completes[i])
  }

  ghost predicate Snapshots(coding: Coding, c: Cache) {
    && TableSound(coding, c.handles)
    && AllDecode(c.handles, c.items) && AllDecode(c.handles, c.previous)
    && (c.lastPartial.Some? ==> AllDecode(c.handles, c.lastPartial.value))
    && (c.loadedAt.Some? ==> FromComplete(c.completes, c.items))
  }

  // ----- invariant: backoff -----

  /** Every recorded failure is five seconds old, or still blocks refreshes until it is. */
  ghost predicate Blocked(c: Cache) {
    forall i :: 0 <= i < |c.events| && c.events[i].FailedAt? ==>
      var due := c.events[i].at + BACKOFF_SECONDS;
      due <= c.now || (c.retryAt.Some? && due <= c.retryAt.value)
  }

  ghost predicate Cooled(c: Cache) {
    forall i :: 0 <= i < |c.events| && c.events[i].FailedAt? ==> c.events[i].at + BACKOFF_SECONDS <= c.now
  }

  ghost predicate Spaced(events: seq<Event>) {
    forall i, j :: 0 <= i < j < |events| && events[i].FailedAt? && events[j].Started? ==>
      events[i].at + BACKOFF_SECONDS <= events[j].at
  }

  // ----- invariant: callers -----

  ghost predicate CallerSound(c: Cache, phase: Phase) {
    match phase
    case Refreshing(_) => Cooled(c)
    case Discovering(_) => Cooled(c)
    case Building(_, complete, source, done) =>
      && AllDecode(c.handles, done) && |done| <= |source|
      && (forall k :: 0 <= k < |done| ==> done[k].payload == source[k])
      && (complete ==> Cooled(c) && source in c.completes)
      && (!complete ==> c.loadedAt.None?)
    case Finishing(_, result, stale) => stale ==> c.loadedAt.Some? && result == Items(c.items)
    case _ => true
  }

  ghost predicate CallersSound(c: Cache, callers: Callers) {
    forall pid :: pid in callers ==> CallerSound(c, callers[pid])
  }

  ghost predicate Inv(coding: Coding, s: State) {
    && SingleFlight(s.cache, s.callers)
    && Snapshots(coding, s.cache)
    && Blocked(s.cache) && Spaced(s.cache.events)
    && CallersSound(s.cache, s.callers)
  }
}
