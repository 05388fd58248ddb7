/** A response body cut off at a byte limit (responseLimitBody in internal/server/auth.go). */
module LimitedBody {
  import opened JsonValues

  type Byte = bv8

  function Min(a: nat, b: nat): nat { if a < b then a else b }

  /** The wrapped reader: some bytes, handed out in whatever chunks and with whatever errors it likes. */
  class Source {
    const data: seq<Byte>
    const chunk: nat -> nat
    const failure: nat -> Option<string>
    var calls: nat
    var position: nat

    ghost predicate Valid()
      reads this
    {
      position <= |data|
    }

    constructor (data: seq<Byte>, chunk: nat -> nat, failure: nat -> Option<string>)
      ensures Valid() && position == 0 && this.data == data
    {
      this.data, this.chunk, this.failure := data, chunk, failure;
      calls, position := 0, 0;
    }

    /** Fills at most the first size places of a buffer. */
    method Read(buffer: array<Byte>, size: nat) returns (n: nat, failed: Option<string>)
      requires Valid() && size <= buffer.Length
      modifies this, buffer
      ensures Valid() && n <= size && position == old(position) + n
      ensures failed == failure(old(calls)) && calls == old(calls) + 1
      ensures n == Min(Min(chunk(old(calls)), size), |data| - old(position))
      ensures buffer[..n] == data[old(position)..position] && buffer[n..] == old(buffer[n..])
    {
      n := Min(Min(chunk(calls), size), |data| - position);
      failed := failure(calls);
      for i := 0 to n
        invariant position == old(position) && calls == old(calls)
        invariant buffer[..i] == data[position..position + i] && buffer[i..] == old(buffer[i..])
      {
        buffer[i] := data[position + i];
      }
      calls, position := calls + 1, position + n;
    }
  }

  datatype Answer = Fine | Failing(reason: string) | TooLarge

  function AnswerOf(failed: Option<string>): Answer {
    match failed case Some(reason) => Failing(reason) case None => Fine
  }

  class ResponseLimitBody {
    const source: Source
    const limit: nat
    var remaining: nat
    var exceeded: bool
    ghost var delivered: seq<Byte>

    /** However the source chunks its bytes, what was delivered is the first limit bytes of what was pulled, at most one
        byte more was pulled, and the body is exceeded exactly when that byte was. */
    ghost predicate Valid()
      reads this, source
    {
      && source.Valid()
      && delivered == source.data[..Min(limit, source.position)]
      && remaining == limit - |delivered|
      && source.position <= limit + 1
      && (exceeded <==> source.position > limit)
    }

    constructor (source: Source, limit: nat)
      requires source.Valid() && source.position == 0
      ensures Valid() && this.source == source && this.limit == limit && delivered == [] && !exceeded
    {
      this.source, this.limit := source, limit;
      remaining, exceeded, delivered := limit, false, [];
    }

    method Read(buffer: array<Byte>) returns (n: nat, answer: Answer)
      requires Valid()
      modifies this, source, buffer
      ensures Valid()
      ensures n <= buffer.Length && delivered == old(delivered) + buffer[..n]
      ensures answer == TooLarge <==> buffer.Length > 0 && exceeded
      ensures buffer.Length > 0 && !exceeded ==>
                match source.failure(old(source.calls))
                case Some(reason) => answer == Failing(reason)
                case None => answer == Fine
      ensures old(exceeded) ==> exceeded && n == 0
      ensures buffer.Length == 0 ==> answer == Fine && source.position == old(source.position)
      ensures old(source.position) <= source.position <= old(source.position) + buffer.Length
      ensures if buffer.Length == 0 || old(exceeded) then source.position == old(source.position)
              else
                && source.calls == old(source.calls) + 1
                && source.position == old(source.position) +
                     Min(Min(source.chunk(old(source.calls)), Min(buffer.Length, limit + 1 - old(source.position))),
                         |source.data| - old(source.position))
    {
      if buffer.Length == 0 {
        return 0, Fine;
      }
      if exceeded {
        return 0, TooLarge;
      }
      if remaining == 0 {
        n, answer := Probe();
        return;
      }
      var size := Min(buffer.Length, remaining + 1);
      var read, failed := source.Read(buffer, size);
      n := Min(read, remaining);
      delivered := delivered + buffer[..n];
      assert buffer[..n] == buffer[..read][..n];
      assert buffer[..n] == source.data[old(source.position)..old(source.position) + n];
      remaining := remaining - n;
      exceeded := read > n;
      answer := if exceeded then TooLarge else AnswerOf(failed);
    }

    /** With nothing left to deliver, one byte is asked for to tell the end from an excess. */
    method Probe() returns (n: nat, answer: Answer)
      requires Valid() && remaining == 0 && !exceeded
      modifies this, source
      ensures Valid() && n == 0 && delivered == old(delivered)
      ensures answer == if exceeded then TooLarge else AnswerOf(source.failure(old(source.calls)))
      ensures old(source.position) <= source.position <= old(source.position) + 1
      ensures source.calls == old(source.calls) + 1
      ensures source.position == old(source.position) +
                Min(Min(source.chunk(old(source.calls)), 1), |source.data| - old(source.position))
    {
      var probe := new Byte[1];
      var read, failed := source.Read(probe, 1);
      exceeded := read > 0;
      n, answer := 0, if exceeded then TooLarge else AnswerOf(failed);
    }

    /** Any sequence of reads, whatever the buffer sizes: the delivered bytes are a prefix of the source within the
        limit, at most one byte beyond it is pulled, and once too large, always too large. */
    method ReadAll(sizes: seq<nat>) returns (answers: seq<Answer>)
      requires Valid()
      modifies this, source
      ensures Valid() && |answers| == |sizes|
      ensures delivered <= source.data && |delivered| <= limit && source.position <= limit + 1
      ensures forall i :: 0 <= i < |answers| && answers[i] == TooLarge ==> exceeded
      ensures exceeded && !old(exceeded) ==> TooLarge in answers
      ensures forall i, j :: 0 <= i < j < |answers| && answers[i] == TooLarge && sizes[j] > 0 ==> answers[j] == TooLarge
      ensures exceeded ==> |source.data| > limit && delivered == source.data[..limit]
      ensures !exceeded && source.position == |source.data| ==> delivered == source.data
    {
      answers := [];
      for k := 0 to |sizes|
        invariant Valid() && |answers| == k
        invariant forall i :: 0 <= i < k && answers[i] == TooLarge ==> exceeded
        invariant exceeded && !old(exceeded) ==> TooLarge in answers
        invariant forall i, j :: 0 <= i < j < k && answers[i] == TooLarge && sizes[j] > 0 ==> answers[j] == TooLarge
      {
        var buffer := new Byte[sizes[k]];
        var n, answer := Read(buffer);
        answers := answers + [answer];
      }
    }
  }
}
