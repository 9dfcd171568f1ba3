/** The consumed half of `IBufferWriter<char>`: a sink that hands out
    writable windows (`GetSpan`) and accepts "the first `count` characters of
    the last window are output" (`Advance`).

    The window sizes a real provider chooses are its own business. Here they
    come from `defaultSize` and an arbitrary `slack` function of the request
    number and hint, so one class stands for every sizing policy. The cursor
    relies only on the contracts of `Advance` and `GetSpan`: a fresh,
    non-empty window of the size the policy gives, committed text unchanged,
    and the request counted. Only `Init` and the concrete scenarios state
    anything that depends on that exact size. */
module Buffers {

  class BufferWriter {
    /** Everything acknowledged through `Advance`, in order. */
    var committed: seq<char>
    /** The window most recently handed out by `GetSpan`. */
    var last: array<char>
    /** How many windows have been requested so far. */
    var requests: nat
    /** The size hint of the most recent request (0: the default size). */
    ghost var lastHint: nat
    /** The total window space handed out so far, in characters. */
    ghost var received: nat
    /** The length of every window handed out so far, in order. */
    ghost var lengths: seq<nat>

    const defaultSize: nat
    const slack: (nat, nat) -> nat

    constructor (defaultSize: nat, slack: (nat, nat) -> nat)
      ensures committed == [] && requests == 0 && lastHint == 0 && received == 0
      ensures lengths == []
      ensures this.defaultSize == defaultSize && this.slack == slack
    {
      this.defaultSize := defaultSize;
      this.slack := slack;
      committed := [];
      last := new char[0];
      requests := 0;
      lastHint := 0;
      received := 0;
      lengths := [];
    }

    /** Acknowledges the first `count` characters of the last window. More
        than the window holds is a contract violation. */
    method Advance(count: nat)
      requires count <= last.Length
      modifies this
      ensures last == old(last) && requests == old(requests) && lastHint == old(lastHint)
      ensures received == old(received) && lengths == old(lengths)
      ensures committed == old(committed) + last[..count]
    {
      committed := committed + last[..count];
    }

    /** The size of the window this provider hands out for the request
        numbered `request` with hint `sizeHint`. */
    function WindowSize(request: nat, sizeHint: nat): (size: nat)
      ensures size >= sizeHint && size >= 1
    {
      var base := if sizeHint > 0 then sizeHint else defaultSize;
      (if base == 0 then 1 else base) + slack(request, sizeHint)
    }

    /** Hands out a fresh window of at least `sizeHint` characters, and never
        an empty one. A `sizeHint` of 0 asks for the provider's default. */
    method GetSpan(sizeHint: nat) returns (span: array<char>)
      modifies this
      ensures fresh(span) && span.Length >= sizeHint && span.Length >= 1
      ensures span.Length == WindowSize(old(requests), sizeHint)
      ensures last == span && committed == old(committed)
      ensures requests == old(requests) + 1 && lastHint == sizeHint
      ensures received == old(received) + span.Length
      ensures lengths == old(lengths) + [span.Length]
    {
      span := new char[WindowSize(requests, sizeHint)];
      last := span;
      requests := requests + 1;
      lastHint := sizeHint;
      received := received + span.Length;
      lengths := lengths + [span.Length];
    }
  }
}
