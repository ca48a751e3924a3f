/** A stream socket: what the peer sent before closing, delivered in pieces of any size. */
module Sockets {
  import opened Outcomes

  /** What the network does with one read: nothing in time, or at most this many bytes. */
  datatype Grant = TimedOut | AtMost(bytes: nat)

  /** How many of the available bytes one read takes: at least one of them, at most the limit. */
  function Portion(grant: Grant, limit: nat, available: nat): nat
    requires grant.AtMost?
  {
    var size := if grant.bytes == 0 then 1 else grant.bytes;
    var n := if size < limit then size else limit;
    if n < available then n else available
  }

  class Socket<T> {
    const incoming: seq<T>
    const grants: nat -> Grant
    var at: nat
    var calls: nat

    predicate Valid()
      reads this
    {
      at <= |incoming|
    }

    constructor (incoming: seq<T>, grants: nat -> Grant)
      ensures Valid() && this.incoming == incoming && this.grants == grants && at == 0 && calls == 0
    {
      this.incoming := incoming;
      this.grants := grants;
      this.at := 0;
      this.calls := 0;
    }

    function Unread(): seq<T>
      requires Valid()
      reads this
    {
      incoming[at..]
    }

    /** At least one byte and at most `limit`, unless the peer has closed or nothing came in time. */
    method Recv(limit: nat) returns (chunk: Option<seq<T>>)
      requires Valid() && limit > 0
      modifies this
      ensures Valid() && calls == old(calls) + 1
      ensures chunk.None? <==> grants(old(calls)).TimedOut?
      ensures chunk.None? ==> Unread() == old(Unread())
      ensures chunk.Some? ==> chunk.value + Unread() == old(Unread())
      ensures chunk.Some? ==> |chunk.value| == Portion(grants(old(calls)), limit, |old(Unread())|)
    {
      var grant := grants(calls);
      calls := calls + 1;
      if grant.TimedOut? {
        return None;
      }
      var n := Portion(grant, limit, |incoming| - at);
      chunk := Some(incoming[at..at + n]);
      at := at + n;
    }
  }

  /** Whether some read between two moments timed out. */
  ghost predicate TimedOutBetween<T>(socket: Socket<T>, from: nat, to: nat)
    reads socket
  {
    exists i :: from <= i < to && socket.grants(i).TimedOut?
  }
}
