/** The acceptance client's reader of pipelined fixed-length HTTP/1.1 responses. */
module Http {
  import opened HttpHead
  import opened Outcomes
  import opened Searching
  import opened Sockets

  const MAX_HEADER: nat := 131072
  const MAX_BODY: nat := 1048576
  const BLANK_LINE := "\r\n\r\n"

  datatype Error =
    | ReceiveTimeout
    | HeaderEof
    | HeaderSize(actual: nat)
    | BadHead(reason: HeadError)
    | BodySize(actual: nat)
    | BodyEof(expected: nat, actual: nat)

  datatype Response = Response(status: nat, fields: map<string, string>, body: string)

  // ------------------------------------------------------------------ one response of a whole stream

  /** Where the head of a stream's first response ends, blank line included. */
  function HeadEnd(stream: string): Option<nat> {
    var i := Find(stream, BLANK_LINE, 0);
    if i == |stream| then None else Some(i + 4)
  }

  /** The first response of a stream held entirely, and what is left after it. */
  function ReadResponse(stream: string, head: bool): Result<(Response, string), Error> {
    FindIsFirst(stream, BLANK_LINE, 0);
    var end := HeadEnd(stream);
    if end.None? then Err(HeaderEof)
    else
      var parsed := ParseHead(stream[..end.value - 4]);
      if parsed.Err? then Err(BadHead(parsed.error)) else CutBody(parsed.value, stream[end.value..], head)
  }

  function CutBody(parsed: Head, rest: string, head: bool): Result<(Response, string), Error> {
    var count := if head then 0 else parsed.length;
    if count > MAX_BODY then Err(BodySize(count))
    else if |rest| < count then Err(BodyEof(count, |rest|))
    else Ok((Response(parsed.status, parsed.fields, rest[..count]), rest[count..]))
  }

  /** What a stream gives whose first blank line follows the header: the header's error; for an answer to a HEAD
      request, whatever length it states, no body and all that follows left; otherwise as many bytes as it states,
      unless they are too many or too few are there. */
  lemma ReadIs(header: string, after: string, head: bool)
    requires forall i | 0 <= i < |header| :: !Occurs(header + BLANK_LINE + after, BLANK_LINE, i)
    ensures ReadResponse(header + BLANK_LINE + after, head) ==
      var parsed := ParseHead(header);
      if parsed.Err? then Err(BadHead(parsed.error))
      else if head then Ok((Response(parsed.value.status, parsed.value.fields, ""), after))
      else if parsed.value.length > MAX_BODY then Err(BodySize(parsed.value.length))
      else if |after| < parsed.value.length then Err(BodyEof(parsed.value.length, |after|))
      else Ok((Response(parsed.value.status, parsed.value.fields, after[..parsed.value.length]), after[parsed.value.length..]))
  {
    var stream := header + BLANK_LINE + after;
    FourParts(header, BLANK_LINE, after, "");
    assert stream + "" == stream && after + "" == after;
    assert Occurs(stream, BLANK_LINE, |header|);
    FindIsFirst(stream, BLANK_LINE, 0);
    assert HeadEnd(stream) == Some(|header| + 4);
  }

  /** Every other stream has no blank line and ends before the head does. */
  lemma HeadlessIff(stream: string, head: bool)
    ensures ReadResponse(stream, head) == Err(HeaderEof) <==> forall i: nat :: !Occurs(stream, BLANK_LINE, i)
  {
    FindIsFirst(stream, BLANK_LINE, 0);
  }

  // ------------------------------------------------------------------ filling the buffer up to a head

  datatype Fill = Filled(size: nat) | Overfull(size: nat) | Drained | GaveUp

  /** How the header loop ends when the first `size` bytes of the stream are already held: the size
      check comes after each read, so it sees whatever that read brought. */
  function FillHead(stream: string, size: nat, grants: nat -> Grant, call: nat): Fill
    requires size <= |stream|
    decreases |stream| - size
  {
    if HeadEnd(stream[..size]).Some? then Filled(size)
    else if grants(call).TimedOut? then GaveUp
    else
      var more := Portion(grants(call), 4096, |stream| - size);
      if more == 0 then Drained
      else if size + more > MAX_HEADER then Overfull(size + more)
      else FillHead(stream, size + more, grants, call + 1)
  }

  lemma PrefixOccurs(stream: string, mark: string, size: nat, i: nat)
    requires size <= |stream|
    ensures Occurs(stream[..size], mark, i) <==> Occurs(stream, mark, i) && i + |mark| <= size
  {
  }

  /** A prefix holds the head exactly when it reaches the head's end, and then it is the same head. */
  lemma HeadInPrefixIff(stream: string, size: nat)
    requires size <= |stream|
    ensures HeadEnd(stream[..size]) ==
      if HeadEnd(stream).Some? && HeadEnd(stream).value <= size then HeadEnd(stream) else None
  {
    var i, j := Find(stream, BLANK_LINE, 0), Find(stream[..size], BLANK_LINE, 0);
    FindIsFirst(stream, BLANK_LINE, 0);
    FindIsFirst(stream[..size], BLANK_LINE, 0);
    PrefixOccurs(stream, BLANK_LINE, size, i);
    PrefixOccurs(stream, BLANK_LINE, size, j);
  }

  ghost predicate NeverTimesOut(grants: nat -> Grant) { forall k: nat :: grants(k).AtMost? }

  /** The most the buffer can come to hold before the head is seen to be there, over all schedules. */
  function Furthest(stream: string): nat {
    var end := if HeadEnd(stream).Some? then HeadEnd(stream).value - 1 + 4096 else |stream|;
    if end < |stream| then end else |stream|
  }

  /** Nothing needs to be read: the head is held already, or there is nothing more. */
  predicate Settled(stream: string, size: nat) {
    size == |stream| || (HeadEnd(stream).Some? && HeadEnd(stream).value <= size)
  }

  lemma {:induction false} NeverOverfull(stream: string, size: nat, grants: nat -> Grant, call: nat)
    requires size <= |stream| && (Settled(stream, size) || Furthest(stream) <= MAX_HEADER)
    ensures !FillHead(stream, size, grants, call).Overfull?
    decreases |stream| - size
  {
    HeadInPrefixIff(stream, size);
    if !Settled(stream, size) && grants(call).AtMost? {
      var more := Portion(grants(call), 4096, |stream| - size);
      if more > 0 { NeverOverfull(stream, size + more, grants, call + 1); }
    }
  }

  /** Bytes one at a time up to a moment, then as many as fit. */
  function Trickle(n: nat): nat -> Grant { (k: nat) => if k < n then AtMost(1) else AtMost(4096) }

  lemma {:induction false} TrickleOverfills(stream: string, size: nat, n: nat, call: nat)
    requires size < |stream| && Furthest(stream) > MAX_HEADER && !Settled(stream, size)
    requires HeadEnd(stream).Some? && call <= n && size + (n - call) == HeadEnd(stream).value - 1
    ensures FillHead(stream, size, Trickle(n), call).Overfull?
    decreases |stream| - size
  {
    HeadInPrefixIff(stream, size);
    FindIsFirst(stream, BLANK_LINE, 0);
    if call < n { TrickleOverfills(stream, size + 1, n, call + 1); }
  }

  lemma {:induction false} HeadlessOverfills(stream: string, size: nat, call: nat)
    requires size < |stream| && |stream| > MAX_HEADER && HeadEnd(stream).None?
    ensures FillHead(stream, size, Trickle(0), call).Overfull?
    decreases |stream| - size
  {
    HeadInPrefixIff(stream, size);
    var more := Portion(AtMost(4096), 4096, |stream| - size);
    if size + more < |stream| { HeadlessOverfills(stream, size + more, call + 1); }
  }

  /** Whether a response is refused for the size of its head depends on how its bytes arrive. All
      schedules agree that it is not exactly when nothing more needs to be read or the largest read
      that may complete the head, 4095 bytes past its last byte, still fits. */
  lemma HeaderSizeIndependentIff(stream: string, size: nat)
    requires size <= |stream|
    ensures (forall grants | NeverTimesOut(grants) :: !FillHead(stream, size, grants, 0).Overfull?)
        <==> Settled(stream, size) || Furthest(stream) <= MAX_HEADER
  {
    if Settled(stream, size) || Furthest(stream) <= MAX_HEADER {
      forall grants | NeverTimesOut(grants) ensures !FillHead(stream, size, grants, 0).Overfull? {
        NeverOverfull(stream, size, grants, 0);
      }
    } else if HeadEnd(stream).Some? {
      FindIsFirst(stream, BLANK_LINE, 0);
      var n := HeadEnd(stream).value - 1 - size;
      TrickleOverfills(stream, size, n, 0);
      assert NeverTimesOut(Trickle(n));
    } else {
      HeadlessOverfills(stream, size, 0);
      assert NeverTimesOut(Trickle(0));
    }
  }

  /** A stream whose head fills the limit exactly and is followed by more: two schedules, two ends of
      the header loop. */
  lemma FullHeadEnds(stream: string)
    requires |stream| > MAX_HEADER && HeadEnd(stream) == Some(MAX_HEADER)
    ensures FillHead(stream, 0, Trickle(MAX_HEADER), 0).Filled?
    ensures FillHead(stream, 0, Trickle(MAX_HEADER - 1), 0).Overfull?
  {
    TrickleOverfills(stream, 0, MAX_HEADER - 1, 0);
    TrickleFills(stream, 0, 0);
  }

  lemma {:induction false} TrickleFills(stream: string, size: nat, call: nat)
    requires size == call <= MAX_HEADER <= |stream| && HeadEnd(stream) == Some(MAX_HEADER)
    ensures FillHead(stream, size, Trickle(MAX_HEADER), call).Filled?
    decreases MAX_HEADER - size
  {
    HeadInPrefixIff(stream, size);
    if size < MAX_HEADER { TrickleFills(stream, size + 1, call + 1); }
  }

  /** A head held in a buffer is the head of the whole stream, and cutting it off the buffer cuts it
      off the stream. */
  lemma CutAt(buffer: string, unread: string, end: nat)
    requires HeadEnd(buffer) == Some(end) && 4 <= end <= |buffer|
    ensures HeadEnd(buffer + unread) == Some(end)
    ensures (buffer + unread)[..end - 4] == buffer[..end - 4]
    ensures (buffer + unread)[end..] == buffer[end..] + unread
  {
    assert (buffer + unread)[..|buffer|] == buffer;
    HeadInPrefixIff(buffer + unread, |buffer|);
  }

  /** The stream was the header, a blank line, the body and the rest, in this order; the header says the status and the
      fields, and the body is as long as it says, or empty for an answer to a HEAD request. */
  ghost predicate IsReadOff(stream: string, head: bool, header: string, response: Response, rest: string) {
    && stream == header + BLANK_LINE + response.body + rest && |response.body| <= MAX_BODY
    && ParseHead(header).Ok? && ParseHead(header).value.status == response.status && ParseHead(header).value.fields == response.fields
    && |response.body| == (if head then 0 else ParseHead(header).value.length)
  }

  lemma Rejoined(stream: string, end: nat, count: nat)
    requires HeadEnd(stream) == Some(end) && 4 <= end <= |stream| && count <= |stream[end..]|
    ensures stream == stream[..end - 4] + BLANK_LINE + stream[end..][..count] + stream[end..][count..]
  {
    FindIsFirst(stream, BLANK_LINE, 0);
    assert stream == stream[..end - 4] + stream[end - 4..end] + stream[end..];
    assert stream[end..] == stream[end..][..count] + stream[end..][count..];
  }

  // ------------------------------------------------------------------ the reader

  class Client {
    const socket: Socket<char>
    var buffer: string
    var order: nat

    constructor (socket: Socket<char>)
      ensures this.socket == socket && buffer == "" && order == 0
    {
      this.socket := socket;
      this.buffer := "";
      this.order := 0;
    }

    ghost predicate Valid()
      reads socket
    {
      socket.Valid()
    }

    /** Everything the peer sent that no response has taken: held in the buffer or still to come. */
    function Remainder(): string
      requires socket.Valid()
      reads this, socket
    {
      buffer + socket.Unread()
    }

    /** One read into the buffer: how many bytes it brought, none at the end of the stream. */
    method Pull(limit: nat) returns (more: Option<nat>)
      requires Valid() && limit > 0
      modifies this`buffer, socket
      ensures Valid() && Remainder() == old(Remainder()) && socket.calls == old(socket.calls) + 1
      ensures more.None? <==> socket.grants(old(socket.calls)).TimedOut?
      ensures more.None? ==> buffer == old(buffer)
      ensures more.Some? ==>
        && more.value == Portion(socket.grants(old(socket.calls)), limit, |old(Remainder())| - |old(buffer)|)
        && |buffer| == |old(buffer)| + more.value && buffer == Remainder()[..|buffer|]
    {
      var part := socket.Recv(limit);
      if part.None? {
        return None;
      }
      ghost var before := buffer;
      buffer := buffer + part.value;
      assert before + (part.value + socket.Unread()) == buffer + socket.Unread();
      return Some(|part.value|);
    }

    /** Reads until the buffer holds a head. */
    method FillBuffer() returns (r: Result<(), Error>)
      requires Valid()
      modifies this`buffer, socket
      ensures Valid() && Remainder() == old(Remainder()) && old(socket.calls) <= socket.calls
      ensures var fill := old(FillHead(Remainder(), |buffer|, socket.grants, socket.calls));
        match fill
        case Filled(size) => r.Ok? && |buffer| == size && HeadEnd(buffer).Some?
        case Overfull(size) => r == Err(HeaderSize(size))
        case Drained => r == Err(HeaderEof) && old(HeadEnd(Remainder())).None?
        case GaveUp => r == Err(ReceiveTimeout)
      ensures r == Err(ReceiveTimeout) <==> TimedOutBetween(socket, old(socket.calls), socket.calls)
    {
      ghost var stream, from := Remainder(), socket.calls;
      ghost var fill := FillHead(stream, |buffer|, socket.grants, from);
      assert stream[..|buffer|] == buffer;
      while HeadEnd(buffer).None?
        invariant Valid() && Remainder() == stream && buffer == stream[..|buffer|]
        invariant from <= socket.calls && !TimedOutBetween(socket, from, socket.calls)
        invariant FillHead(stream, |buffer|, socket.grants, socket.calls) == fill
        decreases |stream| - |buffer|
      {
        var more := Pull(4096);
        if more.None? {
          return Err(ReceiveTimeout);
        }
        if more.value == 0 {
          assert stream == buffer;
          return Err(HeaderEof);
        }
        if |buffer| > MAX_HEADER {
          return Err(HeaderSize(|buffer|));
        }
      }
      return Ok(());
    }

    /** Reads until the buffer holds `count` bytes, and never asks for more than that. */
    method FillBody(count: nat) returns (r: Result<(), Error>)
      requires Valid()
      modifies this`buffer, socket
      ensures Valid() && Remainder() == old(Remainder()) && old(socket.calls) <= socket.calls
      ensures r == Err(ReceiveTimeout) <==> TimedOutBetween(socket, old(socket.calls), socket.calls)
      ensures r != Err(ReceiveTimeout) ==>
        r == if |old(Remainder())| >= count then Ok(()) else Err(BodyEof(count, |old(Remainder())|))
      ensures r.Ok? ==> |buffer| >= count && (|old(buffer)| <= count ==> |buffer| == count)
    {
      ghost var stream := Remainder();
      while |buffer| < count
        invariant Valid() && Remainder() == stream && old(socket.calls) <= socket.calls
        invariant |old(buffer)| <= |buffer| && (|old(buffer)| <= count ==> |buffer| <= count)
        invariant |old(buffer)| > count ==> buffer == old(buffer)
        invariant !TimedOutBetween(socket, old(socket.calls), socket.calls)
        decreases |stream| - |buffer|
      {
        var more := Pull(if count - |buffer| < 65536 then count - |buffer| else 65536);
        if more.None? {
          return Err(ReceiveTimeout);
        }
        if more.value == 0 {
          assert stream == buffer;
          return Err(BodyEof(count, |buffer|));
        }
      }
      return Ok(());
    }

    /** Cuts the next head off the stream. */
    method TakeHeader() returns (r: Result<string, Error>)
      requires Valid()
      modifies this`buffer, socket
      ensures Valid() && old(socket.calls) <= socket.calls
      ensures r == Err(ReceiveTimeout) <==> TimedOutBetween(socket, old(socket.calls), socket.calls)
      ensures r.Err? && r.error.HeaderSize? <==>
        old(FillHead(Remainder(), |buffer|, socket.grants, socket.calls)).Overfull?
      ensures r.Err? ==> r.error.ReceiveTimeout? || r.error.HeaderSize? || (r.error.HeaderEof? && old(HeadEnd(Remainder())).None?)
      ensures r.Ok? ==>
        var end := old(HeadEnd(Remainder()));
        && end.Some? && 4 <= end.value <= |old(Remainder())|
        && r.value == old(Remainder())[..end.value - 4] && Remainder() == old(Remainder())[end.value..]
    {
      ghost var stream := Remainder();
      var filled := FillBuffer();
      if filled.Err? {
        return Err(filled.error);
      }
      var end := HeadEnd(buffer).value;
      FindIsFirst(buffer, BLANK_LINE, 0);
      CutAt(buffer, socket.Unread(), end);
      r := Ok(buffer[..end - 4]);
      buffer := buffer[end..];
    }

    /** Cuts a body of the given length off the stream. */
    method TakeBody(count: nat) returns (r: Result<string, Error>)
      requires Valid()
      modifies this`buffer, socket
      ensures Valid() && old(socket.calls) <= socket.calls
      ensures r == Err(ReceiveTimeout) <==> TimedOutBetween(socket, old(socket.calls), socket.calls)
      ensures r.Err? && r != Err(ReceiveTimeout) ==>
        |old(Remainder())| < count && r == Err(BodyEof(count, |old(Remainder())|))
      ensures r.Ok? ==>
        && |old(Remainder())| >= count
        && r.value == old(Remainder())[..count] && Remainder() == old(Remainder())[count..]
    {
      var filled := FillBody(count);
      if filled.Err? {
        return Err(filled.error);
      }
      r := Ok(buffer[..count]);
      buffer := buffer[count..];
    }

    /** The next response of the stream: what reading the whole stream at once gives, unless a read
        times out or the buffer outgrows its limit before the head is complete. The buffer and the
        bytes still to come are together exactly what the responses so far left. */
    method Read(head: bool) returns (r: Result<Response, Error>)
      requires Valid()
      modifies this, socket
      ensures Valid() && order == old(order) + 1 && old(socket.calls) <= socket.calls
      ensures r == Err(ReceiveTimeout) <==> TimedOutBetween(socket, old(socket.calls), socket.calls)
      ensures r.Ok? ==> old(ReadResponse(Remainder(), head)) == Ok((r.value, Remainder()))
      ensures r.Ok? ==> exists header :: IsReadOff(old(Remainder()), head, header, r.value, Remainder())
      ensures r.Err? && !r.error.ReceiveTimeout? && !r.error.HeaderSize? ==> old(ReadResponse(Remainder(), head)) == Err(r.error)
      ensures r.Err? && r.error.HeaderSize? <==>
        old(FillHead(Remainder(), |buffer|, socket.grants, socket.calls)).Overfull?
    {
      ghost var stream := Remainder();
      order := order + 1;
      var header := TakeHeader();
      if header.Err? {
        return Err(header.error);
      }
      var parsed := ParseHead(header.value);
      if parsed.Err? {
        return Err(BadHead(parsed.error));
      }
      var count := if head then 0 else parsed.value.length;
      if count > MAX_BODY {
        return Err(BodySize(count));
      }
      var body := TakeBody(count);
      if body.Err? {
        return Err(body.error);
      }
      r := Ok(Response(parsed.value.status, parsed.value.fields, body.value));
      Rejoined(stream, HeadEnd(stream).value, count);
      assert IsReadOff(stream, head, header.value, r.value, Remainder());
    }
  }

  // ------------------------------------------------------------------ pipelined responses

  /** A fixed-length response as a server sends it; an answer to a HEAD request states the length of a body that
      is not sent. */
  datatype Message = Message(head: bool, header: string, body: string)

  predicate WellFormed(m: Message) {
    && HeadEnd(m.header + BLANK_LINE) == Some(|m.header| + 4)
    && ParseHead(m.header).Ok?
    && (if m.head then m.body == "" else ParseHead(m.header).value.length == |m.body| && |m.body| <= MAX_BODY)
    && |m.header| + 4 + 4095 <= MAX_HEADER
  }

  function Sent(m: Message): string { m.header + BLANK_LINE + m.body }

  function Meaning(m: Message): Response
    requires WellFormed(m)
  {
    Response(ParseHead(m.header).value.status, ParseHead(m.header).value.fields, m.body)
  }

  function Stream(ms: seq<Message>): string { if ms == [] then "" else Sent(ms[0]) + Stream(ms[1..]) }

  /** A well-formed response at the front of a stream is read exactly, the rest left as it is. */
  lemma SentReadsBack(m: Message, rest: string)
    requires WellFormed(m)
    ensures ReadResponse(Sent(m) + rest, m.head) == Ok((Meaning(m), rest))
    ensures Furthest(Sent(m) + rest) <= MAX_HEADER
  {
    FourParts(m.header, BLANK_LINE, m.body, rest);
    HeadInPrefixIff(Sent(m) + rest, |m.header| + |BLANK_LINE|);
  }

  lemma FourParts(a: string, b: string, c: string, d: string)
    ensures (a + b + c + d)[..|a|] == a && (a + b + c + d)[..|a| + |b|] == a + b
    ensures (a + b + c + d)[|a| + |b|..] == c + d
    ensures (c + d)[..|c|] == c && (c + d)[|c|..] == d
  {
  }

  method ReadOne(client: Client, head: bool, ghost m: Message, ghost after: string) returns (r: Result<Response, Error>)
    requires client.Valid() && WellFormed(m) && head == m.head && client.Remainder() == Sent(m) + after
    modifies client, client.socket
    ensures client.Valid() && old(client.socket.calls) <= client.socket.calls
    ensures r == Err(ReceiveTimeout) <==> TimedOutBetween(client.socket, old(client.socket.calls), client.socket.calls)
    ensures r != Err(ReceiveTimeout) ==> r == Ok(Meaning(m)) && client.Remainder() == after
  {
    SentReadsBack(m, after);
    NeverOverfull(client.Remainder(), |client.buffer|, client.socket.grants, client.socket.calls);
    r := client.Read(head);
  }

  predicate AllWellFormed(ms: seq<Message>) { ms != [] ==> WellFormed(ms[0]) && AllWellFormed(ms[1..]) }

  function Meanings(ms: seq<Message>): seq<Response>
    requires AllWellFormed(ms)
  {
    if ms == [] then [] else [Meaning(ms[0])] + Meanings(ms[1..])
  }

  /** Any number of pipelined responses, answers to HEAD requests among them, come back in order, exactly,
      under every schedule of reads, and what follows them stays for the next reader. */
  method ReadAll(client: Client, heads: seq<bool>, ghost sent: seq<Message>, ghost rest: string)
    returns (r: Result<seq<Response>, Error>)
    requires client.Valid() && AllWellFormed(sent)
    requires |heads| == |sent| && forall i | 0 <= i < |heads| :: heads[i] == sent[i].head
    requires client.Remainder() == Stream(sent) + rest
    modifies client, client.socket
    ensures client.Valid() && old(client.socket.calls) <= client.socket.calls
    ensures !TimedOutBetween(client.socket, old(client.socket.calls), client.socket.calls) ==>
      r == Ok(Meanings(sent)) && client.Remainder() == rest
    decreases |heads|
  {
    if heads == [] {
      assert Stream(sent) + rest == rest;
      return Ok([]);
    }
    assert Stream(sent) + rest == Sent(sent[0]) + (Stream(sent[1..]) + rest);
    var first := ReadOne(client, heads[0], sent[0], Stream(sent[1..]) + rest);
    if first.Err? {
      return Err(first.error);
    }
    var others := ReadAll(client, heads[1..], sent[1..], rest);
    if others.Err? {
      return others;
    }
    return Ok([first.value] + others.value);
  }

  /** A response with a status line and its length, as a server writes it, is well-formed, and so is the answer to a
      HEAD request that states that length and sends nothing. */
  lemma RenderedWellFormed(code: string, reason: string, body: string)
    requires |code| == 3 && IsDigits(code) && '\r' !in reason
    requires |Rendered(code, reason, |body|)| + 4 + 4095 <= MAX_HEADER
    ensures |body| <= MAX_BODY ==> WellFormed(Message(false, Rendered(code, reason, |body|), body))
    ensures |body| <= MAX_BODY ==>
      Meaning(Message(false, Rendered(code, reason, |body|), body)) ==
        Response(Decimal(code), map["content-length" := Digits(|body|)], body)
    ensures WellFormed(Message(true, Rendered(code, reason, |body|), ""))
    ensures Meaning(Message(true, Rendered(code, reason, |body|), "")) ==
      Response(Decimal(code), map["content-length" := Digits(|body|)], "")
  {
    RenderedParses(code, reason, |body|);
    RenderedEnds(code, reason, |body|);
  }

  lemma RenderedEnds(code: string, reason: string, length: nat)
    requires |code| == 3 && IsDigits(code) && '\r' !in reason
    ensures HeadEnd(Rendered(code, reason, length) + BLANK_LINE) == Some(|Rendered(code, reason, length)| + 4)
  {
    var header := Rendered(code, reason, length);
    var s := header + BLANK_LINE;
    var line := "HTTP/1.1" + " " + code + " " + reason;
    DigitsDenote(length);
    FindIsFirst(s, BLANK_LINE, 0);
    var i := Find(s, BLANK_LINE, 0);
    assert Occurs(s, BLANK_LINE, |header|);
    OccursStarts(s, BLANK_LINE, i);
    if i < |header| {
      assert s[i] == '\r' == header[i];
      OneReturn(code, reason, length, i);
      NoBlankLine(s, i);
    }
  }

  lemma NoBlankLine(s: string, i: nat)
    requires i + 2 < |s| && s[i + 2] != '\r'
    ensures !Occurs(s, BLANK_LINE, i)
  {
  }

  /** The only carriage return of a rendered head ends its status line. */
  lemma OneReturn(code: string, reason: string, length: nat, i: nat)
    requires |code| == 3 && IsDigits(code) && '\r' !in reason
    requires i < |Rendered(code, reason, length)| && Rendered(code, reason, length)[i] == '\r'
    ensures i + 2 < |Rendered(code, reason, length)| && Rendered(code, reason, length)[i + 2] == 'C'
  {
    var line, field := "HTTP/1.1" + " " + code + " " + reason, "Content-Length" + ":" + " " + Digits(length);
    DigitsDenote(length);
    assert '\r' !in line && '\r' !in field;
    var header := line + "\r\n" + field;
    assert header == Rendered(code, reason, length);
    forall j | 0 <= j < |header| && j != |line| ensures header[j] != '\r' {
      if j < |line| { assert header[j] in line; }
      if j > |line| + 1 { assert header[j] == field[j - |line| - 2]; }
    }
  }

  /** A response with a body of two bytes whose head, blank line included, is as long as the limit. */
  const LONG_REASON: string := seq(MAX_HEADER - 36, i => 'a')
  const FULL_HEAD: string := Rendered("200", LONG_REASON, 2)
  const FULL_STREAM: string := FULL_HEAD + BLANK_LINE + "ok"

  lemma FullHead()
    ensures |FULL_HEAD| + 4 == MAX_HEADER && HeadEnd(FULL_STREAM) == Some(MAX_HEADER)
    ensures FULL_STREAM[..MAX_HEADER - 4] == FULL_HEAD && FULL_STREAM[MAX_HEADER..] == "ok"
  {
    assert Digits(2) == "2" && '\r' !in LONG_REASON;
    RenderedEnds("200", LONG_REASON, 2);
    FourParts(FULL_HEAD, BLANK_LINE, "ok", "");
    assert FULL_STREAM + "" == FULL_STREAM && "ok" + "" == "ok";
    HeadInPrefixIff(FULL_STREAM, |FULL_HEAD| + 4);
  }

  lemma TwoHundred()
    ensures IsDigits("200") && Decimal("200") == 200
  {
    assert "200"[..2] == "20" && "20"[..1] == "2" && "2"[..0] == "";
    assert Decimal("2") == 2 && Decimal("20") == 20;
  }

  lemma FullResponse()
    ensures ReadResponse(FULL_STREAM, false) == Ok((Response(200, map["content-length" := "2"], "ok"), ""))
  {
    FullHead();
    assert Digits(2) == "2" && '\r' !in LONG_REASON;
    RenderedParses("200", LONG_REASON, 2);
    TwoHundred();
    var parsed := Head(200, map["content-length" := "2"], 2);
    assert ParseHead(FULL_HEAD) == Ok(parsed);
    assert "ok"[..2] == "ok" && "ok"[2..] == "";
    assert CutBody(parsed, "ok", false) == Ok((Response(200, map["content-length" := "2"], "ok"), ""));
  }

  /** The same bytes, a complete response, read by two clients: one whose bytes arrive singly until
      the head is there, and one that gets the last of them together with what follows. The first
      reads the response, the second refuses it for the size of its head. */
  method ChunkingDecides() returns (patient: Result<Response, Error>, hasty: Result<Response, Error>)
    ensures patient == Ok(Response(200, map["content-length" := "2"], "ok"))
    ensures hasty.Err? && hasty.error.HeaderSize?
  {
    FullHead();
    FullResponse();
    FullHeadEnds(FULL_STREAM);
    patient := ReadFrom(FULL_STREAM, Trickle(MAX_HEADER));
    hasty := ReadFrom(FULL_STREAM, Trickle(MAX_HEADER - 1));
  }

  /** The first response a new client reads. */
  method ReadFrom(stream: string, grants: nat -> Grant) returns (r: Result<Response, Error>)
    requires forall k: nat :: grants(k).AtMost?
    ensures FillHead(stream, 0, grants, 0).Overfull? ==> r.Err? && r.error.HeaderSize?
    ensures !FillHead(stream, 0, grants, 0).Overfull? ==>
      if ReadResponse(stream, false).Ok? then r == Ok(ReadResponse(stream, false).value.0)
      else r == Err(ReadResponse(stream, false).error)
  {
    var socket := new Socket(stream, grants);
    var client := new Client(socket);
    assert client.Remainder() == stream;
    r := client.Read(false);
  }
}
