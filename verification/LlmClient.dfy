/** One logical completion: at most three provider attempts, each paid for by its own reservation. */
module LlmClient {
  import opened Outcomes
  import opened Sequences
  import opened BudgetLedger
  import opened RunStore
  import opened Tariff

  /** What one provider attempt comes back with. */
  datatype Reply =
    | Answer(tokensIn: nat, tokensOut: nat, hits: Option<nat>, start: Clock)
    | TransportFault(retryable: bool)
    | Unusable

  datatype Failure = Refused(refusal: Refusal) | Unpriceable(error: PriceError) | Transport | BadReply

  /** The provider request whose bytes are sent and whose reservation is fixed beforehand. */
  datatype Prepared = Prepared(price: ModelPrice, inputReserve: nat, outputReserve: nat, reservation: Amount)

  // ------------------------------------------------------------ retries on the ledger

  /** The ledger after reserving the same amount once for each number. */
  function Retried(l: Ledger, ns: seq<nat>, p: Pending): Ledger {
    if |ns| == 0 then l else Reserve(Retried(l, ns[..|ns| - 1], p), ns[|ns| - 1], p)
  }

  /** Every number is above the counter and above the one before it. */
  predicate Issued(l: Ledger, ns: seq<nat>) {
    |ns| > 0 ==>
      var rest := ns[..|ns| - 1];
      Issued(l, rest) && ns[|ns| - 1] > if |rest| == 0 then l.callCounter else rest[|rest| - 1]
  }

  /** The pending entries that failed attempts leave behind. */
  function Kept(ns: seq<nat>, p: Pending): map<nat, Pending> {
    map n | n in ns :: p
  }

  /** What k reservations of the same amount add up to. */
  function Times(k: nat, amount: real): real {
    if k == 0 then 0.0 else Times(k - 1, amount) + amount
  }

  /** What ns reservations of the same amount leave of a ledger. */
  ghost predicate AllPending(l: Ledger, ns: seq<nat>, p: Pending, d: Ledger) {
    && d.pending == l.pending + Kept(ns, p)
    && d.budget.calls == l.budget.calls + |ns|
    && d.budget.cost == l.budget.cost + Times(|ns|, p.reserved)
    && d.budget.settled == l.budget.settled
    && d.budget.tokensIn == l.budget.tokensIn && d.budget.tokensOut == l.budget.tokensOut
    && d.overflow == l.overflow
  }

  predicate Numbered(l: Ledger, ns: seq<nat>, d: Ledger) {
    && d.callCounter == (if |ns| == 0 then l.callCounter else ns[|ns| - 1])
    && l.callCounter <= d.callCounter
    && (forall i | 0 <= i < |ns| :: l.callCounter < ns[i] <= d.callCounter)
  }

  lemma OneMorePending(l: Ledger, ns: seq<nat>, n: nat, p: Pending, d: Ledger)
    requires AllPending(l, ns, p, d)
    ensures AllPending(l, ns + [n], p, Reserve(d, n, p))
  {
  }

  /** Failed attempts conserve money: each one stays pending at the full reservation. */
  lemma {:induction false} RetriedLedger(l: Ledger, ns: seq<nat>, p: Pending)
    requires Balanced(l) && Issued(l, ns)
    ensures Balanced(Retried(l, ns, p)) && Numbered(l, ns, Retried(l, ns, p))
    ensures AllPending(l, ns, p, Retried(l, ns, p))
  {
    if |ns| == 0 {
      assert Kept(ns, p) == map[];
    } else {
      var rest, n := ns[..|ns| - 1], ns[|ns| - 1];
      var d := Retried(l, rest, p);
      assert ns == rest + [n];
      RetriedLedger(l, rest, p);
      WholeReserve(d, n, p);
      InterruptedReserveBalancesIff(d, 5, n, p);
      OneMorePending(l, rest, n, p, d);
    }
  }

  /** A call that fails at the numbers ns and then returns under the number n costs the bill on top
      of one full reservation per failure, and only the failures stay pending. */
  lemma CompletedLedger(l: Ledger, ns: seq<nat>, n: nat, p: Pending, bill: Bill)
    requires Balanced(l) && Issued(l, ns) && n > Retried(l, ns, p).callCounter
    ensures n in Reserve(Retried(l, ns, p), n, p).pending
    ensures var d := Settle(Reserve(Retried(l, ns, p), n, p), n, bill);
      && Balanced(d)
      && d.pending == l.pending + Kept(ns, p)
      && d.budget.calls == l.budget.calls + |ns| + 1
      && d.budget.cost == l.budget.cost + Times(|ns|, p.reserved) + bill.cost
      && d.budget.tokensIn == l.budget.tokensIn + bill.tokensIn && d.budget.tokensOut == l.budget.tokensOut + bill.tokensOut
      && SettledSum(d.budget.settled) == SettledSum(l.budget.settled) + bill.cost
      && d.overflow == l.overflow + Positive(bill.cost - p.reserved)
  {
    var before := Retried(l, ns, p);
    RetriedLedger(l, ns, p);
    WholeReserve(before, n, p);
    InterruptedReserveBalancesIff(before, 5, n, p);
    SettledAfterReserve(before, n, p, bill);
  }

  lemma SettledAfterReserve(l: Ledger, n: nat, p: Pending, bill: Bill)
    requires Balanced(l) && l.callCounter < n && Balanced(Reserve(l, n, p))
    ensures n in Reserve(l, n, p).pending
    ensures var d := Settle(Reserve(l, n, p), n, bill);
      && Balanced(d)
      && d.pending == l.pending
      && d.budget.calls == l.budget.calls + 1
      && d.budget.cost == l.budget.cost + bill.cost
      && d.budget.tokensIn == l.budget.tokensIn + bill.tokensIn && d.budget.tokensOut == l.budget.tokensOut + bill.tokensOut
      && SettledSum(d.budget.settled) == SettledSum(l.budget.settled) + bill.cost
      && d.overflow == l.overflow + Positive(bill.cost - p.reserved)
  {
    var reserved := Reserve(l, n, p);
    WholeSettle(reserved, n, bill);
    InterruptedSettleBalancesIff(reserved, 7, n, bill);
    SettledSumAdd(l.budget.settled, bill.bucket, bill.cost);
    assert n !in l.pending;
    assert reserved.pending - {n} == l.pending;
  }

  // ------------------------------------------------------------ the retry loop

  datatype Attempt = NotAdmitted(refusal: Refusal) | Settled(bill: Bill) | Failed(failure: Failure)

  function Price(prepared: Prepared, reply: Reply): Result<Priced, PriceError>
    requires reply.Answer?
  {
    PriceUsage(prepared.price, reply.tokensIn, reply.tokensOut, reply.hits, Some(reply.start))
  }

  predicate Priceable(prepared: Prepared, reply: Reply) {
    reply.Answer? && Price(prepared, reply).Ok?
  }

  function BillFor(prepared: Prepared, reply: Reply): Bill
    requires Priceable(prepared, reply)
  {
    var priced := Price(prepared, reply).value;
    Bill(priced.cost, priced.bucket, reply.tokensIn, reply.tokensOut)
  }

  function FailureOf(prepared: Prepared, reply: Reply): Failure
    requires !Priceable(prepared, reply)
  {
    match reply
    case Answer(_, _, _, _) => Unpriceable(Price(prepared, reply).error)
    case TransportFault(_) => Transport
    case Unusable => BadReply
  }

  /** Each number is the next one free when it was handed out, the evidence of those before it being
      on disk by then. */
  predicate Handed(counter: nat, requests: set<nat>, ns: seq<nat>) {
    |ns| > 0 ==>
      var rest := ns[..|ns| - 1];
      Handed(counter, requests, rest)
      && ns[|ns| - 1] == NextNumber(if |rest| == 0 then counter else rest[|rest| - 1], requests + Elements(rest))
  }

  /** Numbers handed out rise from the counter on. */
  lemma {:induction false} HandedIssued(l: Ledger, requests: set<nat>, ns: seq<nat>)
    requires Handed(l.callCounter, requests, ns)
    ensures Issued(l, ns)
  {
    if |ns| > 0 { HandedIssued(l, requests, ns[..|ns| - 1]); }
  }

  /** A completion to be made: what it reserves and asks, what is on disk, and how the other runs move
      and the providers answer. */
  datatype Call = Call(
    id: nat,
    caps: Caps,
    prepared: Prepared,
    taskId: string,
    phase: Phase,
    expired: seq<bool>,
    replies: seq<Reply>,
    others: nat -> seq<Ledger>,
    own: Ledger,
    requests: set<nat>)

  function PendingOf(c: Call): Pending { Pending(c.prepared.reservation, c.taskId, c.phase) }

  /** Every attempt so far was admitted, failed retryably and left its reservation pending. */
  predicate Retrying(l: Ledger, c: Call, failed: seq<nat>, d: Ledger)
    requires |failed| <= |c.replies|
  {
    && Handed(l.callCounter, c.requests, failed) && d == Retried(l, failed, PendingOf(c))
    && d.callCounter == (if |failed| == 0 then l.callCounter else failed[|failed| - 1])
    && (forall i | 0 <= i < |failed| :: c.replies[i] == TransportFault(true))
  }

  /** What the attempt after the failed ones finds on disk when it asks for its reservation. */
  function DiskSeen(c: Call, failed: seq<nat>, d: Ledger): seq<Ledger>
    requires c.id < |c.others(2 * |failed|)|
  {
    c.others(2 * |failed|)[c.id := if |failed| == 0 then c.own else d]
  }

  ghost predicate Movable(c: Call, size: nat) { c.id < size && forall k: nat :: |c.others(k)| == size }

  /** How a completion ends: one number settled and the rest pending, or all of them pending; a refusal
      is the admission rule's on what was on disk then. */
  ghost predicate Ends(l: Ledger, c: Call, size: nat, failed: seq<nat>, last: nat, r: Result<Bill, Failure>, d: Ledger)
    requires |failed| <= 3 <= |c.replies| && 3 <= |c.expired| && Movable(c, size)
  {
    var p := PendingOf(c);
    if r.Ok? then
      && |failed| < 3 && Priceable(c.prepared, c.replies[|failed|]) && r.value == BillFor(c.prepared, c.replies[|failed|])
      && var before := Retried(l, failed, p);
        && Retrying(l, c, failed, before)
        && last == NextNumber(before.callCounter, c.requests + Elements(failed))
        && d == Settle(Reserve(before, last, p), last, r.value)
    else if r.error.Refused? then
      && |failed| < 3 && Retrying(l, c, failed, d)
      && Admit(DiskSeen(c, failed, d), d, c.caps, c.expired[|failed|], c.prepared.reservation, c.phase) == Some(r.error.refusal)
    else
      && 0 < |failed| && Handed(l.callCounter, c.requests, failed) && d == Retried(l, failed, p)
      && var reply := c.replies[|failed| - 1];
        && !Priceable(c.prepared, reply) && r.error == FailureOf(c.prepared, reply)
        && (reply == TransportFault(true) ==> |failed| == 3)
        && Retrying(l, c, failed[..|failed| - 1], Retried(l, failed[..|failed| - 1], p))
  }

  lemma OneMoreFailure(l: Ledger, c: Call, failed: seq<nat>, d: Ledger, n: nat)
    requires |failed| < |c.replies| && Retrying(l, c, failed, d)
    requires n == NextNumber(d.callCounter, c.requests + Elements(failed))
    ensures (failed + [n])[..|failed|] == failed && Elements(failed + [n]) == Elements(failed) + {n}
    ensures Handed(l.callCounter, c.requests, failed + [n])
    ensures Retried(l, failed + [n], PendingOf(c)) == Reserve(d, n, PendingOf(c))
    ensures c.replies[|failed|] == TransportFault(true) ==> Retrying(l, c, failed + [n], Reserve(d, n, PendingOf(c)))
  {
    var more := failed + [n];
    assert more[..|more| - 1] == failed;
  }

  lemma EndsSettled(l: Ledger, c: Call, size: nat, failed: seq<nat>, before: Ledger, n: nat, bill: Bill)
    requires |failed| < 3 <= |c.replies| && 3 <= |c.expired| && Movable(c, size) && Retrying(l, c, failed, before)
    requires n == NextNumber(before.callCounter, c.requests + Elements(failed))
    requires Priceable(c.prepared, c.replies[|failed|]) && bill == BillFor(c.prepared, c.replies[|failed|])
    requires n in Reserve(before, n, PendingOf(c)).pending
    ensures Ends(l, c, size, failed, n, Ok(bill), Settle(Reserve(before, n, PendingOf(c)), n, bill))
  {
  }

  lemma EndsRefused(l: Ledger, c: Call, size: nat, failed: seq<nat>, d: Ledger, refusal: Refusal)
    requires |failed| < 3 <= |c.replies| && 3 <= |c.expired| && Movable(c, size) && Retrying(l, c, failed, d)
    requires Admit(DiskSeen(c, failed, d), d, c.caps, c.expired[|failed|], c.prepared.reservation, c.phase) == Some(refusal)
    ensures Ends(l, c, size, failed, 0, Err(Refused(refusal)), d)
  {
  }

  lemma EndsFailed(l: Ledger, c: Call, size: nat, failed: seq<nat>, before: Ledger, n: nat)
    requires |failed| < 3 <= |c.replies| && 3 <= |c.expired| && Movable(c, size) && Retrying(l, c, failed, before)
    requires n == NextNumber(before.callCounter, c.requests + Elements(failed))
    requires var reply := c.replies[|failed|];
      !Priceable(c.prepared, reply) && (reply == TransportFault(true) ==> |failed| == 2)
    ensures var failure := FailureOf(c.prepared, c.replies[|failed|]);
      Ends(l, c, size, failed + [n], 0, Err(failure), Reserve(before, n, PendingOf(c)))
  {
    OneMoreFailure(l, c, failed, before, n);
  }

  /** What one attempt comes to: a refusal by the admission rule on what was on disk then; or the next
      free number, and its reservation settled at its price or kept for a reply without one. */
  ghost predicate Tried(c: Call, size: nat, failed: seq<nat>, a: Attempt, n: nat, d: Ledger, d': Ledger)
    requires |failed| < 3 <= |c.replies| && 3 <= |c.expired| && Movable(c, size)
  {
    var p, reply := PendingOf(c), c.replies[|failed|];
    var refusal := Admit(DiskSeen(c, failed, d), d, c.caps, c.expired[|failed|], c.prepared.reservation, c.phase);
    match a
    case NotAdmitted(reason) => refusal == Some(reason) && d' == d
    case Settled(bill) =>
      && refusal == None && n == NextNumber(d.callCounter, c.requests + Elements(failed))
      && Priceable(c.prepared, reply) && bill == BillFor(c.prepared, reply)
      && n in Reserve(d, n, p).pending && d' == Settle(Reserve(d, n, p), n, bill)
    case Failed(failure) =>
      && refusal == None && n == NextNumber(d.callCounter, c.requests + Elements(failed))
      && !Priceable(c.prepared, reply) && failure == FailureOf(c.prepared, reply)
      && d' == Reserve(d, n, p)
  }

  /** One reservation and one provider attempt, the other runs of the campaign moving before the
      reservation and again before the reply is accounted for. */
  method TryOnce(store: RunStore, c: Call, attempt: nat, ghost failed: seq<nat>) returns (a: Attempt, ghost n: nat)
    requires store.Valid() && |c.expired| >= 3 && |c.replies| >= 3 && Movable(c, |store.root.disk|)
    requires c.id == store.id && c.caps == store.caps && attempt == |failed| < 3
    requires store.root.disk[store.id] == if failed == [] then c.own else store.run
    requires store.root.requests[store.id] == c.requests + Elements(failed)
    modifies store`run, store.root
    ensures store.Valid() && |store.root.disk| == old(|store.root.disk|)
    ensures Tried(c, |store.root.disk|, failed, a, n, old(store.run), store.run)
    ensures store.root.disk[store.id] == if a.NotAdmitted? then old(store.root.disk)[store.id] else store.run
    ensures store.root.requests[store.id] == old(store.root.requests)[store.id] + if a.NotAdmitted? then {} else {n}
  {
    n := 0;
    var prepared, reply := c.prepared, c.replies[attempt];
    assert |c.others(2 * attempt)| == |c.others(2 * attempt + 1)| == |store.root.disk|;
    store.root.OthersMove(store.id, c.others(2 * attempt));
    var reserved := store.ReserveCall(c.taskId, prepared.reservation, c.phase, c.expired[attempt]);
    if reserved.Err? {
      return NotAdmitted(reserved.error), n;
    }
    n := reserved.value;
    store.root.OthersMove(store.id, c.others(2 * attempt + 1));
    if Priceable(prepared, reply) {
      var bill := BillFor(prepared, reply);
      store.SettleCall(reserved.value, bill);
      a := Settled(bill);
    } else {
      store.FailCall(reserved.value);
      a := Failed(FailureOf(prepared, reply));
    }
  }

  /** How the completion ends after this attempt, if it does. */
  function DoneBy(c: Call, attempt: nat, a: Attempt): Option<Result<Bill, Failure>>
    requires attempt < |c.replies|
  {
    match a
    case NotAdmitted(refusal) => Some(Err(Refused(refusal)))
    case Settled(bill) => Some(Ok(bill))
    case Failed(failure) => if c.replies[attempt] != TransportFault(true) || attempt == 2 then Some(Err(failure)) else None
  }

  lemma TriedEnds(l: Ledger, c: Call, size: nat, failed: seq<nat>, a: Attempt, n: nat, d: Ledger, d': Ledger)
    requires |failed| < 3 <= |c.replies| && 3 <= |c.expired| && Movable(c, size)
    requires Retrying(l, c, failed, d) && Tried(c, size, failed, a, n, d, d')
    ensures var done, failed' := DoneBy(c, |failed|, a), if a.Failed? then failed + [n] else failed;
      && (done.Some? ==> Ends(l, c, size, failed', if a.Settled? then n else 0, done.value, d'))
      && (done.None? ==> |failed'| < 3 && Retrying(l, c, failed', d'))
  {
    match a
    case NotAdmitted(refusal) => EndsRefused(l, c, size, failed, d, refusal);
    case Settled(bill) => EndsSettled(l, c, size, failed, d, n, bill);
    case Failed(failure) =>
      OneMoreFailure(l, c, failed, d, n);
      if c.replies[|failed|] != TransportFault(true) || |failed| == 2 { EndsFailed(l, c, size, failed, d, n); }
  }

  /** The attempt that comes after the failed ones: the end of the completion, or one failure more. */
  method TryNext(store: RunStore, c: Call, attempt: nat, ghost l: Ledger, ghost failed: seq<nat>)
    returns (done: Option<Result<Bill, Failure>>, ghost failed': seq<nat>, ghost last: nat)
    requires store.Valid() && |c.expired| >= 3 && |c.replies| >= 3 && Movable(c, |store.root.disk|)
    requires c.id == store.id && c.caps == store.caps && attempt == |failed| < 3 && Retrying(l, c, failed, store.run)
    requires store.root.disk[store.id] == if failed == [] then c.own else store.run
    requires store.root.requests[store.id] == c.requests + Elements(failed)
    modifies store`run, store.root
    ensures store.Valid() && |store.root.disk| == old(|store.root.disk|) && |failed'| <= 3
    ensures done.Some? ==> Ends(l, c, |store.root.disk|, failed', last, done.value, store.run)
    ensures done.None? ==> |failed'| == attempt + 1 < 3 && Retrying(l, c, failed', store.run)
    ensures store.root.disk[store.id] == if failed' == [] && done.Some? && done.value.Err? then c.own else store.run
    ensures store.root.requests[store.id] == c.requests + Elements(failed') + if done.Some? && done.value.Ok? then {last} else {}
  {
    ghost var before := store.run;
    var a, n := TryOnce(store, c, attempt, failed);
    TriedEnds(l, c, |store.root.disk|, failed, a, n, before, store.run);
    done := DoneBy(c, attempt, a);
    failed' := if a.Failed? then failed + [n] else failed;
    last := if a.Settled? then n else 0;
    OneMoreElement(failed, n);
  }

  lemma OneMoreElement(failed: seq<nat>, n: nat)
    ensures Elements(failed + [n]) == Elements(failed) + {n}
  {
  }

  /** At most three attempts, between which the other runs of the campaign move. `failed` holds the
      numbers of the attempts that were reserved and not settled, `last` the number of the settled
      one. */
  method Complete(store: RunStore, c: Call) returns (r: Result<Bill, Failure>, ghost failed: seq<nat>, ghost last: nat)
    requires store.Valid() && |c.expired| >= 3 && |c.replies| >= 3 && Movable(c, |store.root.disk|)
    requires c.id == store.id && c.caps == store.caps && c.own == store.root.disk[store.id] && c.requests == store.root.requests[store.id]
    modifies store`run, store.root
    ensures store.Valid() && |failed| <= 3 && |store.root.disk| == old(|store.root.disk|)
    ensures Ends(old(store.run), c, |store.root.disk|, failed, last, r, store.run)
    ensures store.root.disk[store.id] == if r.Err? && failed == [] then c.own else store.run
    ensures store.root.requests[store.id] == c.requests + Elements(failed) + if r.Ok? then {last} else {}
  {
    ghost var ledger, size := store.run, |store.root.disk|;
    failed, last := [], 0;
    var attempt := 0;
    var done: Option<Result<Bill, Failure>> := None;
    while done.None?
      invariant store.Valid() && |store.root.disk| == size && |failed| <= 3
      invariant done.None? ==> attempt == |failed| < 3 && Retrying(ledger, c, failed, store.run)
      invariant done.Some? ==> Ends(ledger, c, size, failed, last, done.value, store.run)
      invariant store.root.disk[store.id] == if failed == [] && (done.None? || done.value.Err?) then c.own else store.run
      invariant store.root.requests[store.id] == c.requests + Elements(failed) + if done.Some? && done.value.Ok? then {last} else {}
      decreases if done.None? then 4 - attempt else 0
    {
      done, failed, last := TryNext(store, c, attempt, ledger, failed);
      attempt := attempt + 1;
    }
    r := done.value;
  }

  /** However a completion ends, money is conserved, exactly the failed attempts stay pending, and every
      admitted attempt is a call of its own. */
  lemma CompletionConserves(l: Ledger, c: Call, size: nat, failed: seq<nat>, last: nat, r: Result<Bill, Failure>, d: Ledger)
    requires |failed| <= 3 <= |c.replies| && 3 <= |c.expired| && Movable(c, size)
    requires Balanced(l) && Ends(l, c, size, failed, last, r, d)
    ensures Balanced(d) && d.pending == l.pending + Kept(failed, PendingOf(c))
    ensures d.budget.calls == l.budget.calls + |failed| + if r.Ok? then 1 else 0
    ensures d.budget.cost == l.budget.cost + Times(|failed|, c.prepared.reservation) + if r.Ok? then r.value.cost else 0.0
  {
    HandedIssued(l, c.requests, failed);
    if r.Ok? {
      CompletedLedger(l, failed, last, PendingOf(c), r.value);
    } else {
      RetriedLedger(l, failed, PendingOf(c));
    }
  }

  /** What the end of a completion says of the replies: all but the last attempt met a fault that may be retried; it
      returned exactly on an answer with a price, billed by it and counted by its tokens; it raised for the last reply's
      own reason, or because a reservation was refused. */
  lemma EndSays(l: Ledger, c: Call, size: nat, failed: seq<nat>, last: nat, r: Result<Bill, Failure>, d: Ledger)
    requires |failed| <= 3 <= |c.replies| && 3 <= |c.expired| && Movable(c, size)
    requires Ends(l, c, size, failed, last, r, d)
    ensures forall i | 0 <= i < |failed| - 1 :: c.replies[i] == TransportFault(true)
    ensures r.Ok? ==>
      var reply := c.replies[|failed|];
      && |failed| < 3 && (|failed| > 0 ==> c.replies[|failed| - 1] == TransportFault(true))
      && reply.Answer? && r.value.tokensIn == reply.tokensIn && r.value.tokensOut == reply.tokensOut
      && PriceUsage(c.prepared.price, reply.tokensIn, reply.tokensOut, reply.hits, Some(reply.start)).Ok?
      && var priced := PriceUsage(c.prepared.price, reply.tokensIn, reply.tokensOut, reply.hits, Some(reply.start)).value;
        r.value.cost == priced.cost && r.value.bucket == priced.bucket
    ensures r.Err? && r.error.Refused? ==>
      && |failed| < 3 && (|failed| > 0 ==> c.replies[|failed| - 1] == TransportFault(true))
      && FirstGrounds(DiskSeen(c, failed, d), d, c.caps, c.expired[|failed|], c.prepared.reservation, c.phase, r.error.refusal)
    ensures r.Err? && !r.error.Refused? ==>
      && |failed| > 0
      && var reply := c.replies[|failed| - 1];
        && (r.error == Transport <==> reply.TransportFault?) && (reply == TransportFault(true) ==> |failed| == 3)
        && (r.error == BadReply <==> reply.Unusable?)
        && (reply.Answer? ==>
              PriceUsage(c.prepared.price, reply.tokensIn, reply.tokensOut, reply.hits, Some(reply.start)).Err?
              && r.error == Unpriceable(PriceUsage(c.prepared.price, reply.tokensIn, reply.tokensOut, reply.hits, Some(reply.start)).error))
  {
    if r.Err? && r.error.Refused? {
      RefusalIsFirstGrounds(DiskSeen(c, failed, d), d, c.caps, c.expired[|failed|], c.prepared.reservation, c.phase);
    }
  }

  /** A settled answer inside the reserved bounds of a conservative price adds no overflow. */
  lemma BoundedAnswerAddsNoOverflow(l: Ledger, ns: seq<nat>, n: nat, p: Pending, prepared: Prepared, reply: Reply)
    requires Balanced(l) && Issued(l, ns) && n > Retried(l, ns, p).callCounter && p.reserved == prepared.reservation
    requires ValidPrice(prepared.price)
    requires CalculateCost(prepared.price, prepared.inputReserve, prepared.outputReserve) == Ok(prepared.reservation)
    requires AllHitsCovered(prepared.price, prepared.inputReserve, prepared.outputReserve, prepared.reservation)
    requires reply.Answer? && reply.tokensIn <= prepared.inputReserve && reply.tokensOut <= prepared.outputReserve
    requires reply.hits.Some? ==> reply.hits.value <= reply.tokensIn
    ensures Priceable(prepared, reply)
    ensures Settle(Reserve(Retried(l, ns, p), n, p), n, BillFor(prepared, reply)).overflow == l.overflow
  {
    UsageCovered(prepared.price, prepared.inputReserve, prepared.outputReserve,
                 reply.tokensIn, reply.tokensOut, reply.hits, Some(reply.start));
    CompletedLedger(l, ns, n, p, BillFor(prepared, reply));
  }
}
