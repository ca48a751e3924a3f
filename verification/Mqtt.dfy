/** The acceptance client's MQTT framing: Remaining Length, as in section 2.2.3 of MQTT 3.1.1, and
    packets read back over a socket that may deliver any number of bytes at a time. */
module Mqtt {
  import opened Outcomes
  import opened Sockets

  type Byte = b: nat | b < 256

  const MAX_PACKET: nat := 1048576

  // ------------------------------------------------------------------ encoding

  /** Base 128, least significant digit first, the top bit set on all but the last. */
  function Remaining(length: nat): seq<Byte> {
    if length < 128 then [length] else [length % 128 + 128] + Remaining(length / 128)
  }

  function Frame(header: Byte, body: seq<Byte>): seq<Byte> { [header] + Remaining(|body|) + body }

  /** The source's loop, which tests after writing. */
  method EncodeRemaining(length: nat) returns (result: seq<Byte>)
    ensures result == Remaining(length)
  {
    result := [];
    var left := length;
    while true
      invariant result + Remaining(left) == Remaining(length)
      decreases left
    {
      var digit := left % 128;
      ghost var before, was := result, left;
      left := left / 128;
      result := result + [if left > 0 then digit + 128 else digit];
      if left == 0 {
        return;
      }
      assert before + Remaining(was) == result + Remaining(left);
    }
  }

  // ------------------------------------------------------------------ what an encoding denotes

  /** Continuation bits on all digits but the last. */
  predicate WellFormed(ds: seq<Byte>) {
    |ds| > 0 && ds[|ds| - 1] < 128 && forall i | 0 <= i < |ds| - 1 :: ds[i] >= 128
  }

  /** A digit without its continuation bit. */
  function Low(d: Byte): nat { if d < 128 then d else d - 128 }

  function Value(ds: seq<Byte>): nat
    requires |ds| > 0
  {
    if |ds| == 1 then Low(ds[0]) else Low(ds[0]) + 128 * Value(ds[1..])
  }

  /** v moved up by n digits: v << 7n. */
  function Shift(v: nat, n: nat): nat { if n == 0 then v else 128 * Shift(v, n - 1) }

  lemma {:induction false} EncodingDenotes(length: nat)
    ensures WellFormed(Remaining(length)) && Value(Remaining(length)) == length
  {
    if length >= 128 {
      EncodingDenotes(length / 128);
      assert Remaining(length)[1..] == Remaining(length / 128);
      var tail := Remaining(length / 128);
      forall i | 0 <= i < |tail| ensures Remaining(length)[i + 1] == tail[i] {}
    }
  }

  /** k bytes suffice exactly for the lengths below 128^k. */
  lemma {:induction false} EncodingSize(length: nat, k: nat)
    requires k > 0
    ensures |Remaining(length)| <= k <==> length < Shift(1, k)
  {
    if length >= 128 {
      if k > 1 {
        EncodingSize(length / 128, k - 1);
      } else {
        assert Shift(1, 1) == 128 * Shift(1, 0);
        assert |Remaining(length / 128)| > 0;
      }
    } else {
      PowerAtLeast(k);
    }
  }

  lemma {:induction false} PowerAtLeast(k: nat)
    requires k > 0
    ensures Shift(1, k) >= 128
  {
    if k > 1 { PowerAtLeast(k - 1); } else { assert Shift(1, 1) == 128 * Shift(1, 0); }
  }

  lemma TailWellFormed(ds: seq<Byte>)
    requires WellFormed(ds) && |ds| > 1
    ensures WellFormed(ds[1..]) && ds[0] >= 128
  {
  }

  /** Encoding a continued digit followed by more. */
  lemma EncodingStep(d: Byte, v: nat)
    requires d >= 128
    ensures Remaining(Low(d) + 128 * v) == if v > 0 then [d] + Remaining(v) else [Low(d)]
  {
    var length := Low(d) + 128 * v;
    assert length / 128 == v && length % 128 == Low(d);
  }

  lemma SameHead(d: Byte, a: seq<Byte>, b: seq<Byte>)
    ensures [d] + a == [d] + b <==> a == b
  {
    if [d] + a == [d] + b {
      assert a == ([d] + a)[1..] == ([d] + b)[1..] == b;
    }
  }

  /** A digit string decodes and encodes back to itself exactly when it has no superfluous zero at
      the end; the decoder accepts the others too. */
  lemma {:induction false} CanonicalIff(ds: seq<Byte>)
    requires WellFormed(ds)
    ensures ds == Remaining(Value(ds)) <==> |ds| == 1 || ds[|ds| - 1] != 0
    decreases |ds|
  {
    if |ds| > 1 {
      var d, tail := ds[0], ds[1..];
      assert ds == [d] + tail;
      TailWellFormed(ds);
      CanonicalIff(tail);
      EncodingStep(d, Value(tail));
      SameHead(d, tail, Remaining(Value(tail)));
      if Value(tail) == 0 { ZeroValue(tail); }
    } else {
      assert ds == [ds[0]];
    }
  }

  /** Only zero digits denote zero. */
  lemma {:induction false} ZeroValue(ds: seq<Byte>)
    requires WellFormed(ds) && Value(ds) == 0
    ensures ds[|ds| - 1] == 0
    decreases |ds|
  {
    if |ds| > 1 {
      TailWellFormed(ds);
      ZeroValue(ds[1..]);
    }
  }

  /** No other digit string for the same length is as short. */
  lemma {:induction false} EncodingMinimal(ds: seq<Byte>)
    requires WellFormed(ds)
    ensures |Remaining(Value(ds))| <= |ds|
    ensures |Remaining(Value(ds))| == |ds| ==> ds == Remaining(Value(ds))
    decreases |ds|
  {
    if |ds| > 1 {
      var d, tail := ds[0], ds[1..];
      assert ds == [d] + tail;
      TailWellFormed(ds);
      EncodingMinimal(tail);
      EncodingStep(d, Value(tail));
      SameHead(d, tail, Remaining(Value(tail)));
    } else {
      assert ds == [ds[0]];
    }
  }

  lemma EncodingInjective(n: nat, m: nat)
    requires Remaining(n) == Remaining(m)
    ensures n == m
  {
    EncodingDenotes(n);
    EncodingDenotes(m);
  }

  // ------------------------------------------------------------------ reading packets

  datatype Error =
    | EarlyEof(expected: nat, actual: nat)
    | ReceiveTimeout(expected: nat, actual: nat)
    | ResponseSize(length: nat)
    | RemainingLengthContinues

  datatype Packet = Packet(header: Byte, body: seq<Byte>)

  /** The first n bytes of what is left to read. */
  function Take(s: seq<Byte>, n: nat): Result<seq<Byte>, Error> {
    if n <= |s| then Ok(s[..n]) else Err(EarlyEof(n, |s|))
  }

  /** The length field read from digit `index` on, `length` being what the digits before say, and
      what is left after it; a bounded length ends it, a fourth continuation bit is an error. */
  function LengthField(s: seq<Byte>, index: nat, length: nat): Result<(nat, seq<Byte>), Error>
    requires index <= 4
    decreases 4 - index
  {
    if index == 4 then Err(RemainingLengthContinues)
    else if s == [] then Err(EarlyEof(1, 0))
    else
      var total := length + Shift(Low(s[0]), index);
      if s[0] >= 128 then LengthField(s[1..], index + 1, total)
      else if total > MAX_PACKET then Err(ResponseSize(total))
      else Ok((total, s[1..]))
  }

  /** What one packet read from the stream gives, and what is left after it. */
  function ReadPacket(s: seq<Byte>): Result<(Packet, seq<Byte>), Error> {
    if s == [] then Err(EarlyEof(1, 0))
    else
      var field := LengthField(s[1..], 0, 0);
      if field.Err? then Err(field.error)
      else
        var (length, rest) := field.value;
        if length <= |rest| then Ok((Packet(s[0], rest[..length]), rest[length..])) else Err(EarlyEof(length, |rest|))
  }

  lemma Continued(d: Byte, tail: seq<Byte>)
    requires d >= 128 && WellFormed(tail)
    ensures WellFormed([d] + tail) && Value([d] + tail) == Low(d) + 128 * Value(tail)
  {
  }

  lemma {:induction false} Distribute(d: nat, v: nat, index: nat)
    ensures Shift(d + 128 * v, index) == Shift(d, index) + Shift(v, index + 1)
  {
    if index > 0 { Distribute(d, v, index - 1); }
  }

  lemma TailOf(ds: seq<Byte>, rest: seq<Byte>)
    requires ds != []
    ensures (ds + rest)[0] == ds[0] && (ds + rest)[1..] == ds[1..] + rest
  {
  }

  /** The decoder's accumulation adds up to the value the digits denote. */
  lemma {:induction false} FieldReads(ds: seq<Byte>, rest: seq<Byte>, index: nat, length: nat)
    requires WellFormed(ds) && index + |ds| <= 4 && length + Shift(Value(ds), index) <= MAX_PACKET
    ensures LengthField(ds + rest, index, length) == Ok((length + Shift(Value(ds), index), rest))
    decreases |ds|
  {
    TailOf(ds, rest);
    if |ds| == 1 {
      assert ds[1..] + rest == rest;
    } else {
      var tail, total := ds[1..], length + Shift(Low(ds[0]), index);
      TailWellFormed(ds);
      Distribute(Low(ds[0]), Value(tail), index);
      FieldReads(tail, rest, index + 1, total);
    }
  }

  lemma FrameParts(header: Byte, ds: seq<Byte>, body: seq<Byte>, rest: seq<Byte>)
    ensures var s, after := [header] + ds + body + rest, body + rest;
      s[0] == header && s[1..] == ds + after && after[..|body|] == body && after[|body|..] == rest
  {
  }

  /** Every framed body up to 1 MiB reads back, and what follows it stays unread. */
  lemma FrameReadsBack(header: Byte, body: seq<Byte>, rest: seq<Byte>)
    requires |body| <= MAX_PACKET
    ensures ReadPacket(Frame(header, body) + rest) == Ok((Packet(header, body), rest))
  {
    var ds := Remaining(|body|);
    EncodingDenotes(|body|);
    FourDigitsSuffice(|body|);
    FieldReads(ds, body + rest, 0, 0);
    FrameParts(header, ds, body, rest);
  }

  /** A packet whose length is written with a superfluous zero digit: it is read, though its bytes are
      not the frame of what was read. */
  lemma OverlongAccepted(header: Byte, b: Byte)
    ensures ReadPacket([header, 0x81, 0x00, b]) == Ok((Packet(header, [b]), []))
    ensures Frame(header, [b]) == [header, 0x01, b] != [header, 0x81, 0x00, b]
  {
    var ds: seq<Byte> := [0x81, 0x00];
    var s: seq<Byte> := [header, 0x81, 0x00, b];
    assert Value(ds) == 1 by { assert ds[1..] == [0x00]; }
    assert s[1..] == ds + [b];
    FieldReads(ds, [b], 0, 0);
    assert [b][..1] == [b] && [b][1..] == [];
    assert Remaining(1) == [0x01];
  }

  lemma FourDigitsSuffice(length: nat)
    ensures |Remaining(length)| <= 4 <==> length < 268435456
  {
    EncodingSize(length, 4);
    assert Shift(1, 1) == 128 && Shift(1, 2) == 16384 && Shift(1, 3) == 2097152;
  }

  lemma FirstAgain(s: seq<Byte>, tail: seq<Byte>, rest: seq<Byte>)
    requires s != [] && s[1..] == tail + rest
    ensures s == ([s[0]] + tail) + rest
  {
  }

  /** An accepted length field is a well-formed digit string, and its value is added to what came
      before. */
  lemma {:induction false} FieldTakes(s: seq<Byte>, index: nat, length: nat) returns (ds: seq<Byte>, rest: seq<Byte>)
    requires index < 4 && LengthField(s, index, length).Ok?
    ensures s == ds + rest && WellFormed(ds) && index + |ds| <= 4
    ensures LengthField(s, index, length) == Ok((length + Shift(Value(ds), index), rest))
    decreases 4 - index
  {
    if s[0] >= 128 {
      var tail;
      var total := length + Shift(Low(s[0]), index);
      tail, rest := FieldTakes(s[1..], index + 1, total);
      ds := [s[0]] + tail;
      Continued(s[0], tail);
      Distribute(Low(s[0]), Value(tail), index);
      FirstAgain(s, tail, rest);
    } else {
      ds, rest := [s[0]], s[1..];
    }
  }

  lemma Rejoin(header: Byte, ds: seq<Byte>, after: seq<Byte>, n: nat)
    requires n <= |after|
    ensures [header] + (ds + after) == [header] + ds + after[..n] + after[n..]
  {
  }

  /** Whatever is accepted is a header, a digit string, as many bytes as the digits say, and what
      is left. */
  lemma AcceptedParts(s: seq<Byte>) returns (ds: seq<Byte>)
    requires ReadPacket(s).Ok?
    ensures WellFormed(ds) && |ds| <= 4 && Value(ds) == |ReadPacket(s).value.0.body|
    ensures s == [ReadPacket(s).value.0.header] + ds + ReadPacket(s).value.0.body + ReadPacket(s).value.1
  {
    var after;
    ds, after := FieldTakes(s[1..], 0, 0);
    var n := Value(ds);
    assert Shift(n, 0) == n && LengthField(s[1..], 0, 0) == Ok((n, after));
    assert ReadPacket(s) == Ok((Packet(s[0], after[..n]), after[n..]));
    assert s == [s[0]] + s[1..];
    Rejoin(s[0], ds, after, n);
  }

  lemma MiddleDecides(d: Byte, a: seq<Byte>, b: seq<Byte>, after: seq<Byte>)
    ensures [d] + a + after == [d] + b + after <==> a == b
  {
    var x, y := [d] + a + after, [d] + b + after;
    if x == y {
      assert |a| == |b|;
      assert x[1..1 + |a|] == a && y[1..1 + |b|] == b;
    }
  }

  /** Such parts are the encoder's frame exactly when the digits have no superfluous zero. */
  lemma AcceptedIsFrameIff(header: Byte, ds: seq<Byte>, body: seq<Byte>)
    requires WellFormed(ds) && Value(ds) == |body|
    ensures [header] + ds + body == Frame(header, body) <==> |ds| == 1 || ds[|ds| - 1] != 0
  {
    CanonicalIff(ds);
    MiddleDecides(header, ds, Remaining(|body|), body);
  }

  // ------------------------------------------------------------------ over the socket

  lemma Joined(stream: seq<Byte>, result: seq<Byte>, unread: seq<Byte>, chunk: seq<Byte>, rest: seq<Byte>)
    requires result + unread == stream && chunk + rest == unread
    ensures (result + chunk) + rest == stream
  {
  }

  /** Reads exactly `length` bytes, however few come at a time. */
  method Receive(socket: Socket<Byte>, length: nat) returns (r: Result<seq<Byte>, Error>)
    requires socket.Valid()
    modifies socket
    ensures socket.Valid() && old(socket.calls) <= socket.calls
    ensures r.Err? && r.error.ReceiveTimeout? <==> TimedOutBetween(socket, old(socket.calls), socket.calls)
    ensures r.Ok? || !r.error.ReceiveTimeout? ==> r == old(Take(socket.Unread(), length))
    ensures r.Ok? ==> socket.Unread() == old(socket.Unread())[length..]
  {
    ghost var stream := socket.Unread();
    var result: seq<Byte> := [];
    while |result| < length
      invariant socket.Valid() && old(socket.calls) <= socket.calls
      invariant |result| <= length && result + socket.Unread() == stream
      invariant !TimedOutBetween(socket, old(socket.calls), socket.calls)
      decreases length - |result|
    {
      ghost var before := socket.Unread();
      var chunk := socket.Recv(length - |result|);
      if chunk.None? {
        return Err(ReceiveTimeout(length, |result|));
      }
      if chunk.value == [] {
        return Err(EarlyEof(length, |result|));
      }
      Joined(stream, result, before, chunk.value, socket.Unread());
      result := result + chunk.value;
    }
    return Ok(result);
  }

  class Client {
    const socket: Socket<Byte>
    var order: nat

    constructor (socket: Socket<Byte>)
      ensures this.socket == socket && order == 0
    {
      this.socket := socket;
      this.order := 0;
    }

    /** At most four digits of a length, the last without a continuation bit. */
    method ReadLength() returns (r: Result<nat, Error>)
      requires socket.Valid()
      modifies socket
      ensures socket.Valid() && old(socket.calls) <= socket.calls
      ensures r.Err? && r.error.ReceiveTimeout? <==> TimedOutBetween(socket, old(socket.calls), socket.calls)
      ensures r.Ok? ==> old(LengthField(socket.Unread(), 0, 0)).Ok?
      ensures r.Ok? ==> old(LengthField(socket.Unread(), 0, 0)).value == (r.value, socket.Unread())
      ensures r.Err? && !r.error.ReceiveTimeout? ==> old(LengthField(socket.Unread(), 0, 0)) == Err(r.error)
    {
      ghost var stream := socket.Unread();
      ghost var from := socket.calls;
      var length: nat := 0;
      for index := 0 to 4
        invariant socket.Valid() && from <= socket.calls && !TimedOutBetween(socket, from, socket.calls)
        invariant LengthField(stream, 0, 0) == LengthField(socket.Unread(), index, length)
      {
        var digit := Receive(socket, 1);
        if digit.Err? {
          return Err(digit.error);
        }
        length := length + Shift(Low(digit.value[0]), index);
        if digit.value[0] < 128 {
          if length > MAX_PACKET {
            return Err(ResponseSize(length));
          }
          return Ok(length);
        }
      }
      return Err(RemainingLengthContinues);
    }

    /** The next packet: what reading it from the whole unread stream at once would give, unless a
        read times out. */
    method ReadNext() returns (r: Result<Packet, Error>)
      requires socket.Valid()
      modifies this, socket
      ensures socket.Valid() && order == old(order) + 1 && old(socket.calls) <= socket.calls
      ensures r.Err? && r.error.ReceiveTimeout? <==> TimedOutBetween(socket, old(socket.calls), socket.calls)
      ensures r.Ok? ==> old(ReadPacket(socket.Unread())).Ok?
      ensures r.Ok? ==> old(ReadPacket(socket.Unread())).value == (r.value, socket.Unread())
      ensures r.Err? && !r.error.ReceiveTimeout? ==> old(ReadPacket(socket.Unread())) == Err(r.error)
    {
      order := order + 1;
      var header := Receive(socket, 1);
      if header.Err? {
        return Err(header.error);
      }
      var length := ReadLength();
      if length.Err? {
        return Err(length.error);
      }
      var body := Receive(socket, length.value);
      if body.Err? {
        return Err(body.error);
      }
      return Ok(Packet(header.value[0], body.value));
    }
  }

  function Frames(packets: seq<Packet>): seq<Byte> {
    if packets == [] then [] else Frame(packets[0].header, packets[0].body) + Frames(packets[1..])
  }

  /** Packets come back as they were framed, in order, over any schedule of short reads; what
      follows them stays unread. */
  method ReadSequence(client: Client, ghost sent: seq<Packet>, ghost rest: seq<Byte>, count: nat)
    returns (r: Result<seq<Packet>, Error>)
    requires client.socket.Valid() && count == |sent| && forall i | 0 <= i < |sent| :: |sent[i].body| <= MAX_PACKET
    requires client.socket.Unread() == Frames(sent) + rest
    modifies client, client.socket
    ensures client.socket.Valid() && old(client.socket.calls) <= client.socket.calls
    ensures !TimedOutBetween(client.socket, old(client.socket.calls), client.socket.calls) ==>
      r == Ok(sent) && client.socket.Unread() == rest
  {
    var got: seq<Packet> := [];
    for i := 0 to count
      invariant client.socket.Valid() && old(client.socket.calls) <= client.socket.calls
      invariant got == sent[..i]
      invariant client.socket.Unread() == Frames(sent[i..]) + rest
    {
      ghost var after := Frames(sent[i + 1..]) + rest;
      assert sent[i..][1..] == sent[i + 1..];
      assert client.socket.Unread() == Frame(sent[i].header, sent[i].body) + after;
      FrameReadsBack(sent[i].header, sent[i].body, after);
      var next := client.ReadNext();
      if next.Err? {
        return Err(next.error);
      }
      got := got + [next.value];
    }
    assert sent[..count] == sent;
    return Ok(got);
  }
}
