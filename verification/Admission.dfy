/** Request and stream admission (admission.go, and the slots taken in auth.go). */
module Admission {

  /** Half of the concurrency budget, rounded up, and never zero. */
  function PerIdentity(concurrent: nat): (limit: nat)
    ensures concurrent > 0 ==> concurrent <= 2 * limit < concurrent + 2
    ensures limit >= 1
  {
    if (concurrent + 1) / 2 > 1 then (concurrent + 1) / 2 else 1
  }

  /** One request slot is always reserved for calls that are not streams. */
  function StreamCapacity(concurrent: nat): nat {
    if concurrent == 0 then 0 else concurrent - 1
  }

  type Counts = map<string, nat>

  function CountOf(counts: Counts, identity: string): nat {
    if identity in counts then counts[identity] else 0
  }

  function Acquire(counts: Counts, identity: string): Counts {
    counts[identity := CountOf(counts, identity) + 1]
  }

  function Release(counts: Counts, identity: string): Counts {
    if CountOf(counts, identity) <= 1 then counts - {identity} else counts[identity := counts[identity] - 1]
  }

  datatype StreamResult = StreamAcquired | StreamDisabled | StreamAtCapacity

  class RequestAdmission {
    var identities: Counts
    var streams: nat
    const perIdentity: nat
    const streamCapacity: nat

    ghost predicate Valid()
      reads this
    {
      && (forall identity :: identity in identities ==> 0 < identities[identity] <= perIdentity)
      && streams <= streamCapacity
    }

    constructor (concurrent: nat)
      ensures Valid() && identities == map[] && streams == 0
      ensures perIdentity == PerIdentity(concurrent) && streamCapacity == StreamCapacity(concurrent)
    {
      identities, streams := map[], 0;
      perIdentity, streamCapacity := PerIdentity(concurrent), StreamCapacity(concurrent);
    }

    method AcquireIdentity(identity: string) returns (admitted: bool)
      requires Valid()
      modifies this`identities
      ensures Valid()
      ensures admitted <==> CountOf(old(identities), identity) < perIdentity
      ensures identities == if admitted then Acquire(old(identities), identity) else old(identities)
    {
      if CountOf(identities, identity) >= perIdentity {
        return false;
      }
      identities := identities[identity := CountOf(identities, identity) + 1];
      return true;
    }

    method ReleaseIdentity(identity: string)
      requires Valid() && identity in identities
      modifies this`identities
      ensures Valid()
      ensures identities == Release(old(identities), identity)
    {
      identities := identities[identity := identities[identity] - 1];
      if identities[identity] == 0 {
        identities := identities - {identity};
      }
    }

    method AcquireStream() returns (result: StreamResult)
      requires Valid()
      modifies this`streams
      ensures Valid()
      ensures result.StreamAcquired? <==> old(streams) < streamCapacity
      ensures result.StreamDisabled? <==> streamCapacity == 0
      ensures streams == old(streams) + if result.StreamAcquired? then 1 else 0
    {
      if streamCapacity == 0 {
        return StreamDisabled;
      }
      if streams < streamCapacity {
        streams := streams + 1;
        return StreamAcquired;
      }
      return StreamAtCapacity;
    }

    method ReleaseStream()
      requires Valid() && streams > 0
      modifies this`streams
      ensures Valid() && streams == old(streams) - 1
    {
      streams := streams - 1;
    }
  }
}
