/** Every step of the catalog keeps its invariant, and what that means for whole runs. */
module CatalogSafety {
  import opened JsonValues
  import opened Capabilities
  import opened Catalog

  // ----- single flight -----

  lemma {:induction false} IdleIsSound(c: Cache, phase: Phase)
    requires Running(phase).None?
    ensures CallerSound(c, phase)
  {
  }

  /** A caller changes phase without starting or ending a refresh. */
  lemma {:induction false} FlightContinues(c: Cache, later: Cache, callers: Callers, pid: int, phase: Phase)
    requires SingleFlight(c, callers) && later.refreshing == c.refreshing && later.closed == c.closed
    requires if pid in callers then Running(phase) == Running(callers[pid]) else Running(phase).None?
    requires phase.Waiting? ==> phase.channel in c.closed || c.refreshing == Some(phase.channel)
    ensures SingleFlight(later, callers[pid := phase])
  {
    var after := callers[pid := phase];
    forall p ensures CallerInFlight(later, after, p) {
      assert CallerInFlight(c, callers, p);
      assert CallerInFlight(c, callers, pid);
    }
    if c.refreshing.Some? {
      var runner :| runner in callers && Running(callers[runner]) == c.refreshing;
      assert runner in after && Running(after[runner]) == c.refreshing;
    }
  }

  lemma {:induction false} FlightStarts(c: Cache, callers: Callers, pid: int, channel: int)
    requires SingleFlight(c, callers) && c.refreshing.None? && channel !in c.closed && pid in callers
    ensures SingleFlight(c.(refreshing := Some(channel)), callers[pid := Refreshing(channel)])
  {
    var later, after := c.(refreshing := Some(channel)), callers[pid := Refreshing(channel)];
    forall p ensures CallerInFlight(later, after, p) {
      assert CallerInFlight(c, callers, p);
      forall other | other in after && other != pid ensures Running(after[other]).None? {
        assert CallerInFlight(c, callers, other);
      }
    }
    assert Running(after[pid]) == later.refreshing;
  }

  lemma {:induction false} FlightEnds(c: Cache, callers: Callers, pid: int, result: Result)
    requires SingleFlight(c, callers) && pid in callers && Running(callers[pid]).Some?
    ensures SingleFlight(c.(refreshing := None, closed := c.closed + {Running(callers[pid]).value}),
                         callers[pid := Returned(result)])
  {
    var later := c.(refreshing := None, closed := c.closed + {Running(callers[pid]).value});
    var after := callers[pid := Returned(result)];
    assert CallerInFlight(c, callers, pid);
    forall p ensures CallerInFlight(later, after, p) {
      assert CallerInFlight(c, callers, p);
    }
  }

  /** While one caller runs the refresh, no cache change can upset the others. */
  lemma {:induction false} OthersAreIdle(c: Cache, later: Cache, callers: Callers, pid: int, phase: Phase)
    requires SingleFlight(c, callers) && CallerSound(later, phase)
    requires c.refreshing.None? || (pid in callers && Running(callers[pid]).Some?)
    ensures CallersSound(later, callers[pid := phase])
  {
    forall p | p in callers && p != pid ensures CallerSound(later, callers[p]) {
      assert CallerInFlight(c, callers, p);
      assert CallerInFlight(c, callers, pid);
      IdleIsSound(later, callers[p]);
    }
  }

  // ----- snapshots -----

  lemma {:induction false} DecodeSurvives(handles: Handles, later: Handles, items: seq<Capability>)
    requires AllDecode(handles, items) && NeverRebound(handles, later)
    requires forall i :: 0 <= i < |items| ==> items[i].id in later
    ensures AllDecode(later, items)
  {
    forall i | 0 <= i < |items| ensures DecodeId(later, items[i].id) == Some(items[i]) {
      assert DecodeId(handles, items[i].id) == Some(items[i]);
    }
  }

  lemma {:induction false} HandleHasPrefix(coding: Coding, handles: Handles, id: string)
    requires FaithfulCoding(coding) && TableSound(coding, handles) && id in handles
    ensures DecodeId(handles, id) == Some(Capability(id, handles[id]))
  {
    assert IsHandleOf(coding, id, handles[id]);
    var bytes: nat :| Length(bytes) && id == IdAt(coding, handles[id], bytes);
    assert |coding.sign(handles[id])| == DIGEST_BYTES;
  }

  lemma {:induction false} EncodeKeepsSnapshots(coding: Coding, c: Cache, payload: string)
    requires FaithfulCoding(coding) && Snapshots(coding, c)
    ensures var (later, id) := Encode(coding, c.handles, payload);
            && Snapshots(coding, c.(handles := later)) && NeverRebound(c.handles, later) && c.handles.Keys <= later.Keys
            && (id.Some? ==> DecodeId(later, id.value) == Some(Capability(id.value, payload)))
  {
    var (later, id) := Encode(coding, c.handles, payload);
    EncodeKeepsTable(coding, c.handles, payload);
    KeptItems(c.handles, later, c.items);
    KeptItems(c.handles, later, c.previous);
    if c.lastPartial.Some? {
      KeptItems(c.handles, later, c.lastPartial.value);
    }
    if id.Some? {
      HandleHasPrefix(coding, later, id.value);
    }
  }

  lemma {:induction false} KeptItems(handles: Handles, later: Handles, items: seq<Capability>)
    requires AllDecode(handles, items) && NeverRebound(handles, later) && handles.Keys <= later.Keys
    ensures AllDecode(later, items)
  {
    forall i | 0 <= i < |items| ensures items[i].id in later {
      assert DecodeId(handles, items[i].id) == Some(items[i]);
    }
    DecodeSurvives(handles, later, items);
  }

  lemma {:induction false} RetainedItems(handles: Handles, items: seq<Capability>, kept: seq<Capability>)
    requires AllDecode(handles, items) && forall i :: 0 <= i < |items| ==> items[i] in kept
    ensures AllDecode(Retain(handles, kept), items)
  {
    forall i | 0 <= i < |items| ensures items[i].id in Retain(handles, kept) {
      assert DecodeId(handles, items[i].id) == Some(items[i]);
      var k :| 0 <= k < |kept| && kept[k] == items[i];
      assert Names(kept, items[i].id);
    }
    DecodeSurvives(handles, Retain(handles, kept), items);
  }

  lemma {:induction false} ReorderedDecode(handles: Handles, items: seq<Capability>, order: seq<Capability>)
    requires AllDecode(handles, items) && multiset(order) == multiset(items)
    ensures AllDecode(handles, order)
  {
    forall i | 0 <= i < |order| ensures DecodeId(handles, order[i].id) == Some(order[i]) {
      assert order[i] in multiset(items);
      var k :| 0 <= k < |items| && items[k] == order[i];
    }
  }

  /** A published snapshot, and the one it replaces, keep decoding after the table is trimmed. */
  lemma {:induction false} PublishKeepsSnapshots(coding: Coding, c: Cache, phase: Phase, order: seq<Capability>)
    requires Snapshots(coding, c) && phase.Building? && CallerSound(c, phase)
    requires |phase.done| == |phase.source| && multiset(order) == multiset(phase.done)
    ensures Snapshots(coding, PublishCache(c, phase.complete, order))
    ensures NeverRebound(c.handles, PublishCache(c, phase.complete, order).handles)
  {
    ReorderedDecode(c.handles, phase.done, order);
    if phase.complete {
      var kept := order + c.items;
      RetainKeepsTable(coding, c.handles, kept);
      RetainedItems(c.handles, order, kept);
      RetainedItems(c.handles, c.items, kept);
      var i :| 0 <= i < |c.completes| && c.completes[i] == phase.source;
      assert BuiltFrom(order, phase.done, c.completes[i]);
    }
  }

  lemma {:induction false} MoreCompletes(c: Cache, found: seq<string>, items: seq<Capability>)
    requires FromComplete(c.completes, items)
    ensures FromComplete(c.completes + [found], items)
  {
    var i, built :| 0 <= i < |c.completes| && BuiltFrom(items, built, c.completes[i]);
    assert (c.completes + [found])[i] == c.completes[i];
  }

  // ----- every step -----

  lemma {:induction false} TickKeepsInv(coding: Coding, s: State, now: int)
    requires Inv(coding, s) && s.cache.now <= now
    ensures Inv(coding, s.(cache := s.cache.(now := now)))
  {
    var c, later := s.cache, s.cache.(now := now);
    forall p ensures CallerInFlight(later, s.callers, p) {
      assert CallerInFlight(c, s.callers, p);
    }
    forall p | p in s.callers ensures CallerSound(later, s.callers[p]) {
      assert CallerSound(c, s.callers[p]);
    }
  }

  /** Steps that leave the cache alone and keep the caller out of, or inside, the refresh. */
  lemma {:induction false} PhaseKeepsInv(coding: Coding, s: State, pid: int, phase: Phase)
    requires Inv(coding, s) && CallerSound(s.cache, phase)
    requires if pid in s.callers then Running(phase) == Running(s.callers[pid]) else Running(phase).None?
    requires phase.Waiting? ==> phase.channel in s.cache.closed || s.cache.refreshing == Some(phase.channel)
    ensures Inv(coding, Go(s, pid, s.cache, phase))
  {
    FlightContinues(s.cache, s.cache, s.callers, pid, phase);
  }

  /** Steps of the running refresh that change the cache. */
  lemma {:induction false} RefreshKeepsInv(coding: Coding, s: State, pid: int, later: Cache, phase: Phase)
    requires Inv(coding, s) && pid in s.callers && Running(s.callers[pid]).Some?
    requires Running(phase) == Running(s.callers[pid])
    requires later.refreshing == s.cache.refreshing && later.closed == s.cache.closed
    requires Snapshots(coding, later) && Blocked(later) && Spaced(later.events) && CallerSound(later, phase)
    ensures Inv(coding, Go(s, pid, later, phase))
  {
    FlightContinues(s.cache, later, s.callers, pid, phase);
    OthersAreIdle(s.cache, later, s.callers, pid, phase);
  }

  lemma {:induction false} LookKeepsInv(coding: Coding, s: State, pid: int, channel: int)
    requires Inv(coding, s) && Enabled(s, Look(pid, channel))
    ensures Inv(coding, Next(coding, s, Look(pid, channel)))
  {
    var c := s.cache;
    var phase, later := LookPhase(c, channel), LookCache(c, channel);
    if phase.Refreshing? {
      assert Cooled(later);
      FlightStarts(c, s.callers, pid, channel);
      OthersAreIdle(c, later, s.callers, pid, phase);
    } else {
      PhaseKeepsInv(coding, s, pid, phase);
    }
  }

  lemma {:induction false} BeginKeepsInv(coding: Coding, s: State, pid: int)
    requires Inv(coding, s) && Enabled(s, Begin(pid))
    ensures Inv(coding, Next(coding, s, Begin(pid)))
  {
    var c := s.cache;
    assert CallerSound(c, s.callers[pid]);
    RefreshKeepsInv(coding, s, pid, c.(events := c.events + [Started(c.now)]), Discovering(s.callers[pid].channel));
  }

  lemma {:induction false} DiscoverKeepsInv(coding: Coding, s: State, pid: int, outcome: Outcome)
    requires Inv(coding, s) && Enabled(s, Discover(pid, outcome))
    ensures Inv(coding, Next(coding, s, Discover(pid, outcome)))
  {
    var c, channel := s.cache, s.callers[pid].channel;
    var later := DiscoverCache(c, outcome);
    assert CallerSound(c, s.callers[pid]);
    if outcome.Complete? {
      if c.loadedAt.Some? {
        MoreCompletes(c, outcome.found, c.items);
      }
      assert later.completes[|c.completes|] == outcome.found;
    }
    RefreshKeepsInv(coding, s, pid, later, DiscoverPhase(c, channel, outcome));
  }

  lemma {:induction false} EncodedIsSound(coding: Coding, c: Cache, phase: Phase)
    requires FaithfulCoding(coding) && Snapshots(coding, c) && Blocked(c)
    requires phase.Building? && |phase.done| < |phase.source| && CallerSound(c, phase)
    ensures Snapshots(coding, EncodeCache(coding, c, phase)) && Blocked(EncodeCache(coding, c, phase))
    ensures CallerSound(EncodeCache(coding, c, phase), EncodePhase(coding, c, phase))
    ensures NeverRebound(c.handles, EncodeCache(coding, c, phase).handles)
  {
    EncodeKeepsSnapshots(coding, c, phase.source[|phase.done|]);
    KeptItems(c.handles, EncodeCache(coding, c, phase).handles, phase.done);
  }

  lemma {:induction false} EncodeKeepsInv(coding: Coding, s: State, pid: int)
    requires FaithfulCoding(coding) && Inv(coding, s) && Enabled(s, EncodeOne(pid))
    ensures Inv(coding, Next(coding, s, EncodeOne(pid)))
    ensures NeverRebound(s.cache.handles, Next(coding, s, EncodeOne(pid)).cache.handles)
  {
    var c, phase := s.cache, s.callers[pid];
    assert CallerSound(c, phase);
    EncodedIsSound(coding, c, phase);
    RefreshKeepsInv(coding, s, pid, EncodeCache(coding, c, phase), EncodePhase(coding, c, phase));
  }

  lemma {:induction false} PublishKeepsInv(coding: Coding, s: State, pid: int, order: seq<Capability>)
    requires Inv(coding, s) && Enabled(s, Publish(pid, order))
    ensures Inv(coding, Next(coding, s, Publish(pid, order)))
    ensures NeverRebound(s.cache.handles, Next(coding, s, Publish(pid, order)).cache.handles)
  {
    var c, phase := s.cache, s.callers[pid];
    assert CallerSound(c, phase);
    PublishKeepsSnapshots(coding, c, phase, order);
    RefreshKeepsInv(coding, s, pid, PublishCache(c, phase.complete, order),
                    Finishing(phase.channel, Items(order), false));
  }

  lemma {:induction false} CloseKeepsInv(coding: Coding, s: State, pid: int)
    requires Inv(coding, s) && Enabled(s, Close(pid))
    ensures Inv(coding, Next(coding, s, Close(pid)))
  {
    FlightEnds(s.cache, s.callers, pid, s.callers[pid].result);
    OthersAreIdle(s.cache, Next(coding, s, Close(pid)).cache, s.callers, pid, Returned(s.callers[pid].result));
  }

  lemma {:induction false} CallKeepsInv(coding: Coding, s: State, pid: int)
    requires Inv(coding, s) && Enabled(s, Call(pid))
    ensures Inv(coding, Next(coding, s, Call(pid)))
  {
    PhaseKeepsInv(coding, s, pid, Calling);
  }

  lemma {:induction false} WakeKeepsInv(coding: Coding, s: State, pid: int)
    requires Inv(coding, s) && Enabled(s, Wake(pid))
    ensures Inv(coding, Next(coding, s, Wake(pid)))
  {
    PhaseKeepsInv(coding, s, pid, Calling);
  }

  lemma {:induction false} CancelKeepsInv(coding: Coding, s: State, pid: int)
    requires Inv(coding, s) && Enabled(s, Cancel(pid))
    ensures Inv(coding, Next(coding, s, Cancel(pid)))
  {
    assert CallerInFlight(s.cache, s.callers, pid);
    assert CallerSound(s.cache, s.callers[pid]);
    PhaseKeepsInv(coding, s, pid, CancelPhase(s.callers[pid]));
  }

  lemma {:induction false} StepNeverRebinds(coding: Coding, s: State, l: Label)
    requires FaithfulCoding(coding) && Inv(coding, s) && Enabled(s, l)
    ensures NeverRebound(s.cache.handles, Next(coding, s, l).cache.handles)
  {
    if l.EncodeOne? {
      EncodeKeepsInv(coding, s, l.pid);
    } else if l.Publish? {
      PublishKeepsInv(coding, s, l.pid, l.order);
    }
  }

  lemma {:induction false} StepKeepsInv(coding: Coding, s: State, l: Label)
    requires FaithfulCoding(coding) && Inv(coding, s) && Enabled(s, l)
    ensures Inv(coding, Next(coding, s, l))
  {
    match l
    case Tick(now) => TickKeepsInv(coding, s, now);
    case Call(pid) => CallKeepsInv(coding, s, pid);
    case Cancel(pid) => CancelKeepsInv(coding, s, pid);
    case Look(pid, channel) => LookKeepsInv(coding, s, pid, channel);
    case Wake(pid) => WakeKeepsInv(coding, s, pid);
    case Begin(pid) => BeginKeepsInv(coding, s, pid);
    case Discover(pid, outcome) => DiscoverKeepsInv(coding, s, pid, outcome);
    case EncodeOne(pid) => EncodeKeepsInv(coding, s, pid);
    case Publish(pid, order) => PublishKeepsInv(coding, s, pid, order);
    case Close(pid) => CloseKeepsInv(coding, s, pid);
  }

  /** Encoding panics in a run only when two payloads share their whole digest. */
  lemma {:induction false} RunPanicsOnlyOnSharedDigest(coding: Coding, s: State, labels: seq<Label>, payload: string)
    requires FaithfulCoding(coding) && Initial(s) && ValidRun(coding, s, labels)
    requires Encode(coding, Run(coding, s, labels).cache.handles, payload).1.None?
    ensures exists other :: other != payload && coding.sign(other) == coding.sign(payload)
  {
    ReachableInv(coding, s, labels);
    PanicMeansSharedDigest(coding, Run(coding, s, labels).cache.handles, payload);
  }

  // ----- whole runs -----

  lemma {:induction false} RunKeepsInv(coding: Coding, s: State, labels: seq<Label>)
    requires FaithfulCoding(coding) && Inv(coding, s) && ValidRun(coding, s, labels)
    ensures Inv(coding, Run(coding, s, labels))
    decreases |labels|
  {
    if labels != [] {
      StepKeepsInv(coding, s, labels[0]);
      RunKeepsInv(coding, Next(coding, s, labels[0]), labels[1..]);
    }
  }

  lemma {:induction false} ReachableInv(coding: Coding, s: State, labels: seq<Label>)
    requires FaithfulCoding(coding) && Initial(s) && ValidRun(coding, s, labels)
    ensures Inv(coding, Run(coding, s, labels))
  {
    assert Inv(coding, s);
    RunKeepsInv(coding, s, labels);
  }

  /** At most one caller is ever refreshing, every waiter either can wake or waits for a refresh that is really
      running, and ending that refresh releases it. */
  lemma {:induction false} OneRefreshAndNoLostWaiter(coding: Coding, s: State, labels: seq<Label>)
    requires FaithfulCoding(coding) && Initial(s) && ValidRun(coding, s, labels)
    ensures var now := Run(coding, s, labels);
            && (forall p, q :: p in now.callers && q in now.callers && p != q ==>
                  Running(now.callers[p]).None? || Running(now.callers[q]).None?)
            && (forall p :: p in now.callers && now.callers[p].Waiting? ==>
                  || Enabled(now, Wake(p))
                  || exists q :: q in now.callers && Running(now.callers[q]) == Some(now.callers[p].channel))
            && (forall p, q :: p in now.callers && now.callers[p].Waiting? && Enabled(now, Close(q)) ==>
                  Enabled(Next(coding, now, Close(q)), Wake(p)))
  {
    ReachableInv(coding, s, labels);
    var now := Run(coding, s, labels);
    forall p | p in now.callers ensures CallerInFlight(now.cache, now.callers, p) {}
    forall p, q | p in now.callers && now.callers[p].Waiting? && Enabled(now, Close(q))
      ensures Enabled(Next(coding, now, Close(q)), Wake(p))
    {
      assert CallerInFlight(now.cache, now.callers, p) && CallerInFlight(now.cache, now.callers, q);
    }
  }

  /** The stored snapshot is what a complete discovery found, a failed refresh hands back that snapshot as it
      still stands, and no discovery starts within five seconds of an earlier failure. */
  lemma {:induction false} SnapshotsAreCompleteAndBackoffHolds(coding: Coding, s: State, labels: seq<Label>)
    requires FaithfulCoding(coding) && Initial(s) && ValidRun(coding, s, labels)
    ensures var now := Run(coding, s, labels);
            && (now.cache.loadedAt.Some? ==> FromComplete(now.cache.completes, now.cache.items))
            && (forall p :: p in now.callers && now.callers[p].Finishing? && now.callers[p].stale ==>
                  now.callers[p].result == Items(now.cache.items))
            && (forall i, j ::
                  0 <= i < j < |now.cache.events| && now.cache.events[i].FailedAt? && now.cache.events[j].Started? ==>
                    now.cache.events[j].at >= now.cache.events[i].at + 5)
  {
    ReachableInv(coding, s, labels);
    var now := Run(coding, s, labels);
    forall p | p in now.callers ensures CallerSound(now.cache, now.callers[p]) {}
  }

  /** The caller has that result and is about to return it, or has returned it. */
  ghost predicate Settled(callers: Callers, pid: int, channel: int, result: Result) {
    pid in callers && (callers[pid] == Finishing(channel, result, true) || callers[pid] == Returned(result))
  }

  lemma {:induction false} SettledStays(coding: Coding, s: State, labels: seq<Label>, pid: int, channel: int,
                                        result: Result)
    requires ValidRun(coding, s, labels) && Settled(s.callers, pid, channel, result)
    ensures Settled(Run(coding, s, labels).callers, pid, channel, result)
    decreases |labels|
  {
    if labels != [] {
      SettledStays(coding, Next(coding, s, labels[0]), labels[1..], pid, channel, result);
    }
  }

  /** However the run goes on after a failed or partial discovery, its caller returns the snapshot that was stored
      before it, and until then the snapshot stays as it was. */
  lemma {:induction false} FailureKeepsSnapshot(coding: Coding, s: State, before: seq<Label>, now: State,
                                                pid: int, partial: Option<seq<string>>, after: seq<Label>)
    requires FaithfulCoding(coding) && Initial(s) && ValidRun(coding, s, before) && now == Run(coding, s, before)
    requires Enabled(now, Discover(pid, Failed(partial))) && now.cache.loadedAt.Some?
    requires ValidRun(coding, Next(coding, now, Discover(pid, Failed(partial))), after)
    ensures var later := Run(coding, Next(coding, now, Discover(pid, Failed(partial))), after);
            && Settled(later.callers, pid, now.callers[pid].channel, Items(now.cache.items))
            && (later.callers[pid].Finishing? ==> later.cache.items == now.cache.items && later.cache.loadedAt.Some?)
  {
    var failed := Next(coding, now, Discover(pid, Failed(partial)));
    ReachableInv(coding, s, before);
    StepKeepsInv(coding, now, Discover(pid, Failed(partial)));
    RunKeepsInv(coding, failed, after);
    SettledStays(coding, failed, after, pid, now.callers[pid].channel, Items(now.cache.items));
    assert CallerSound(Run(coding, failed, after).cache, Run(coding, failed, after).callers[pid]);
  }

  /** Every handle in the current snapshot, the one before it and the saved partial result decodes to the
      capability it was issued for. */
  lemma {:induction false} HandlesKeepDecoding(coding: Coding, s: State, labels: seq<Label>, capability: Capability)
    requires FaithfulCoding(coding) && Initial(s) && ValidRun(coding, s, labels)
    requires var c := Run(coding, s, labels).cache;
             || capability in c.items || capability in c.previous
             || (c.lastPartial.Some? && capability in c.lastPartial.value)
    ensures DecodeId(Run(coding, s, labels).cache.handles, capability.id) == Some(capability)
  {
    ReachableInv(coding, s, labels);
  }
}
