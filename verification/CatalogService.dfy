/** What a caller of the catalog is given, and when a refresh is due (catalogCache.list in catalog.go). */
module CatalogService {
  import opened JsonValues
  import opened Capabilities
  import opened Catalog
  import opened CatalogSafety

  // ----- a fresh snapshot -----

  lemma {:induction false} TimeGoesOn(coding: Coding, s: State, labels: seq<Label>)
    requires ValidRun(coding, s, labels)
    ensures s.cache.now <= Run(coding, s, labels).cache.now
    decreases |labels|
  {
    if labels != [] {
      TimeGoesOn(coding, Next(coding, s, labels[0]), labels[1..]);
    }
  }

  /** The snapshot is stored and nobody is on the way to replace it. */
  ghost predicate Held(s: State, loadedAt: int, items: seq<Capability>) {
    && s.cache.loadedAt == Some(loadedAt) && s.cache.items == items
    && forall pid :: pid in s.callers ==>
         !s.callers[pid].Refreshing? && !s.callers[pid].Discovering? && !s.callers[pid].Building?
  }

  lemma {:induction false} StepKeepsHeld(coding: Coding, s: State, l: Label, loadedAt: int, items: seq<Capability>)
    requires Held(s, loadedAt, items) && s.cache.now < loadedAt + 300 && Enabled(s, l)
    ensures Held(Next(coding, s, l), loadedAt, items)
  {
  }

  lemma {:induction false} RunKeepsHeld(coding: Coding, s: State, labels: seq<Label>, loadedAt: int,
                                        items: seq<Capability>)
    requires Held(s, loadedAt, items) && ValidRun(coding, s, labels)
    requires Run(coding, s, labels).cache.now < loadedAt + 300
    ensures Held(Run(coding, s, labels), loadedAt, items)
    decreases |labels|
  {
    if labels != [] {
      TimeGoesOn(coding, s, labels);
      StepKeepsHeld(coding, s, labels[0], loadedAt, items);
      RunKeepsHeld(coding, Next(coding, s, labels[0]), labels[1..], loadedAt, items);
    }
  }

  /** For five minutes after a complete discovery is published, however the run goes on, everyone who looks is given
      what was published. */
  lemma {:induction false} SnapshotIsServedWhileFresh(coding: Coding, s: State, before: seq<Label>, now: State,
                                                      pid: int, order: seq<Capability>, after: seq<Label>,
                                                      caller: int, channel: int)
    requires FaithfulCoding(coding) && Initial(s) && ValidRun(coding, s, before) && now == Run(coding, s, before)
    requires Enabled(now, Publish(pid, order)) && now.callers[pid].complete
    requires var published := Next(coding, now, Publish(pid, order));
             && ValidRun(coding, published, after)
             && var later := Run(coding, published, after);
                later.cache.now < now.cache.now + 300 && Enabled(later, Look(caller, channel))
    ensures var later := Run(coding, Next(coding, now, Publish(pid, order)), after);
            Next(coding, later, Look(caller, channel)).callers[caller] == Returned(Items(order))
  {
    var published := Next(coding, now, Publish(pid, order));
    ReachableInv(coding, s, before);
    assert CallerInFlight(now.cache, now.callers, pid);
    RunKeepsHeld(coding, published, after, now.cache.now, order);
  }

  /** Whoever refreshes returns what it found: a complete discovery becomes the snapshot, a partial one is set aside for
      the time of the backoff and the snapshot, if there is one, stays. */
  lemma {:induction false} RefresherReturnsWhatItFound(coding: Coding, s: State, pid: int, order: seq<Capability>)
    requires Enabled(s, Publish(pid, order))
    ensures var published := Next(coding, s, Publish(pid, order));
            && Enabled(published, Close(pid))
            && Next(coding, published, Close(pid)).callers[pid] == Returned(Items(order))
            && if s.callers[pid].complete then
                 published.cache.items == order && published.cache.loadedAt == Some(s.cache.now)
               else
                 && published.cache.items == s.cache.items && published.cache.loadedAt == s.cache.loadedAt
                 && published.cache.lastPartial == Some(order)
  {
  }

  /** Without a snapshot, a failed discovery that found something goes on to build exactly that, and one that found
      nothing is an error. */
  lemma {:induction false} FailedDiscoveryIsBuilt(coding: Coding, s: State, pid: int, partial: Option<seq<string>>)
    requires Enabled(s, Discover(pid, Failed(partial))) && s.cache.loadedAt.None?
    ensures var failed, channel := Next(coding, s, Discover(pid, Failed(partial))), s.callers[pid].channel;
            && failed.callers[pid] == (if partial.Some? then Building(channel, false, partial.value, [])
                                       else Finishing(channel, Error, false))
            && failed.cache.lastPartial.None? && failed.cache.events == s.cache.events + [FailedAt(s.cache.now)]
  {
  }

  // ----- backing off -----

  /** A caller who finds no fresh snapshot within five seconds of a failed discovery is given the old snapshot, or else
      what the failed discovery found, or else its error. */
  lemma {:induction false} BackedOffCallerIsGiven(coding: Coding, s: State, labels: seq<Label>, at: int, pid: int,
                                                  channel: int)
    requires FaithfulCoding(coding) && Initial(s) && ValidRun(coding, s, labels)
    requires var now := Run(coding, s, labels);
             && FailedAt(at) in now.cache.events && now.cache.now < at + 5 && Enabled(now, Look(pid, channel))
             && (now.cache.loadedAt.Some? ==> now.cache.now >= now.cache.loadedAt.value + 300)
    ensures var now := Run(coding, s, labels);
            Next(coding, now, Look(pid, channel)).callers[pid] ==
            Returned(if now.cache.loadedAt.Some? then Items(now.cache.items)
                     else if now.cache.lastPartial.Some? then Items(now.cache.lastPartial.value)
                     else Error)
  {
    ReachableInv(coding, s, labels);
    var now := Run(coding, s, labels);
    var i :| 0 <= i < |now.cache.events| && now.cache.events[i] == FailedAt(at);
    assert now.cache.events[i].FailedAt?;
  }

  /** A backoff ends five seconds after the failure that caused it. */
  ghost predicate Due(c: Cache) {
    c.retryAt.Some? ==> FailedAt(c.retryAt.value - 5) in c.events
  }

  lemma {:induction false} StepKeepsDue(coding: Coding, s: State, l: Label)
    requires Due(s.cache) && Enabled(s, l)
    ensures Due(Next(coding, s, l).cache)
  {
    if l.Discover? && l.outcome.Failed? {
      var later := Next(coding, s, l).cache;
      assert later.events[|s.cache.events|] == FailedAt(s.cache.now);
    } else if l.Begin? && s.cache.retryAt.Some? {
      var i :| 0 <= i < |s.cache.events| && s.cache.events[i] == FailedAt(s.cache.retryAt.value - 5);
      assert Next(coding, s, l).cache.events[i] == s.cache.events[i];
    }
  }

  lemma {:induction false} RunKeepsDue(coding: Coding, s: State, labels: seq<Label>)
    requires Due(s.cache) && ValidRun(coding, s, labels)
    ensures Due(Run(coding, s, labels).cache)
    decreases |labels|
  {
    if labels != [] {
      StepKeepsDue(coding, s, labels[0]);
      RunKeepsDue(coding, Next(coding, s, labels[0]), labels[1..]);
    }
  }

  /** Once the snapshot is five minutes old and every failure five seconds, and nobody is refreshing, the next caller
      refreshes. */
  lemma {:induction false} RefreshResumes(coding: Coding, s: State, labels: seq<Label>, pid: int, channel: int)
    requires Initial(s) && ValidRun(coding, s, labels)
    requires var now := Run(coding, s, labels);
             && Enabled(now, Look(pid, channel)) && now.cache.refreshing.None?
             && (now.cache.loadedAt.Some? ==> now.cache.now >= now.cache.loadedAt.value + 300)
             && (forall at :: FailedAt(at) in now.cache.events ==> now.cache.now >= at + 5)
    ensures var now := Run(coding, s, labels);
            var looked := Next(coding, now, Look(pid, channel));
            && looked.callers[pid] == Refreshing(channel) && looked.cache.refreshing == Some(channel)
            && Enabled(looked, Begin(pid)) && Next(coding, looked, Begin(pid)).callers[pid] == Discovering(channel)
  {
    RunKeepsDue(coding, s, labels);
  }
}
