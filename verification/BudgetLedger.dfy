/** The money part of a run's run.json: what one reservation and one settlement do to it. */
module BudgetLedger {
  import opened Outcomes
  import opened Sums

  datatype Phase = Capability | PublicTools | Generation

  /** The tariff period a settled amount is filed under. */
  datatype Bucket = Peak | OffPeak | Flat | Unclassified

  const NO_PHASE_COSTS: map<Phase, real> := map p: Phase | true :: 0.0
  const NOTHING_SETTLED: map<Bucket, real> := map b: Bucket | true :: 0.0

  type PhaseCosts = m: map<Phase, real> | forall p: Phase :: p in m witness NO_PHASE_COSTS

  type Settled = m: map<Bucket, real> | forall b: Bucket :: b in m witness NOTHING_SETTLED

  function PhaseSum(m: PhaseCosts): real { m[Capability] + m[PublicTools] + m[Generation] }

  function SettledSum(m: Settled): real { m[Peak] + m[OffPeak] + m[Flat] + m[Unclassified] }

  lemma PhaseSumAdd(m: PhaseCosts, p: Phase, amount: real)
    ensures PhaseSum(m[p := m[p] + amount]) == PhaseSum(m) + amount
  {
  }

  lemma SettledSumAdd(m: Settled, b: Bucket, amount: real)
    ensures SettledSum(m[b := m[b] + amount]) == SettledSum(m) + amount
  {
  }

  /** What a reservation may hold back: anything that is not negative. */
  type Amount = x: real | x >= 0.0 witness 0.0

  datatype Pending = Pending(reserved: Amount, taskId: string, phase: Phase)

  /** What a provider's answer costs. */
  datatype Bill = Bill(cost: real, bucket: Bucket, tokensIn: nat, tokensOut: nat)

  datatype Budget = Budget(cost: real, settled: Settled, tokensIn: nat, tokensOut: nat, calls: nat)

  datatype Ledger = Ledger(
    budget: Budget,
    phases: PhaseCosts,
    overflow: real,
    callCounter: nat,
    pending: map<nat, Pending>)

  const EMPTY_LEDGER :=
    Ledger(Budget(0.0, NOTHING_SETTLED, 0, 0, 0), NO_PHASE_COSTS, 0.0, 0, map[])

  datatype Caps = Caps(run: real, campaign: real, capability: real, publicTools: real)

  /** What the campaign lock meters: all spending, or the spending of one phase. */
  datatype Meter = Spent | SpentIn(phase: Phase)

  function Reading(l: Ledger, m: Meter): real {
    match m
    case Spent => l.budget.cost
    case SpentIn(phase) => l.phases[phase]
  }

  /** The cap a run's configuration puts on a meter; generation has none of its own. */
  function CapOn(caps: Caps, m: Meter): Option<real> {
    match m
    case Spent => Some(caps.campaign)
    case SpentIn(Capability) => Some(caps.capability)
    case SpentIn(PublicTools) => Some(caps.publicTools)
    case SpentIn(Generation) => None
  }

  function Readings(disk: seq<Ledger>, m: Meter): seq<real> {
    seq(|disk|, i requires 0 <= i < |disk| => Reading(disk[i], m))
  }

  function Overflows(disk: seq<Ledger>): seq<real> {
    seq(|disk|, i requires 0 <= i < |disk| => disk[i].overflow)
  }

  // ---------------------------------------------------------------- admission

  datatype Refusal =
    | InvalidReservation | RunLiability | TimeUp | RunCostReached
    | CampaignLiability | PhaseCapReached | CampaignCapReached | RunCannotReserve

  function CheckBudget(mem: Ledger, caps: Caps, expired: bool): Option<Refusal> {
    if mem.overflow > 0.0 then Some(RunLiability)
    else if expired then Some(TimeUp)
    else if mem.budget.cost >= caps.run then Some(RunCostReached)
    else None
  }

  /** Every test a reservation passes: the first on the run's own copy, the rest on all run.json files. */
  function Admit(disk: seq<Ledger>, mem: Ledger, caps: Caps, expired: bool, amount: real, phase: Phase): Option<Refusal> {
    if amount < 0.0 then Some(InvalidReservation)
    else if CheckBudget(mem, caps, expired).Some? then CheckBudget(mem, caps, expired)
    else if exists i :: 0 <= i < |disk| && disk[i].overflow > 0.0 then Some(CampaignLiability)
    else if phase != Generation && Sum(Readings(disk, SpentIn(phase))) + amount > CapOn(caps, SpentIn(phase)).value then
      Some(PhaseCapReached)
    else if Sum(Readings(disk, Spent)) + amount > caps.campaign then Some(CampaignCapReached)
    else if mem.budget.cost + amount > caps.run then Some(RunCannotReserve)
    else None
  }

  /** What each refusal says of the moment it is given, whatever the order of the tests. */
  predicate Grounds(disk: seq<Ledger>, mem: Ledger, caps: Caps, expired: bool, amount: real, phase: Phase, refusal: Refusal) {
    match refusal
    case InvalidReservation => amount < 0.0
    case RunLiability => mem.overflow > 0.0
    case TimeUp => expired
    case RunCostReached => mem.budget.cost >= caps.run
    case CampaignLiability => exists i :: 0 <= i < |disk| && disk[i].overflow > 0.0
    case PhaseCapReached =>
      || (phase == Capability && Sum(Readings(disk, SpentIn(Capability))) + amount > caps.capability)
      || (phase == PublicTools && Sum(Readings(disk, SpentIn(PublicTools))) + amount > caps.publicTools)
    case CampaignCapReached => Sum(Readings(disk, Spent)) + amount > caps.campaign
    case RunCannotReserve => mem.budget.cost + amount > caps.run
  }

  /** The place of each test in the order they are made. */
  function Place(refusal: Refusal): nat {
    match refusal
    case InvalidReservation => 0
    case RunLiability => 1
    case TimeUp => 2
    case RunCostReached => 3
    case CampaignLiability => 4
    case PhaseCapReached => 5
    case CampaignCapReached => 6
    case RunCannotReserve => 7
  }

  lemma TestsInOrder()
    ensures Place(InvalidReservation) < Place(RunLiability) < Place(TimeUp) < Place(RunCostReached)
    ensures Place(RunCostReached) < Place(CampaignLiability) < Place(PhaseCapReached) < Place(CampaignCapReached) < Place(RunCannotReserve)
  {
  }

  /** The refusal names the first of the eight tests that has grounds. */
  predicate FirstGrounds(disk: seq<Ledger>, mem: Ledger, caps: Caps, expired: bool, amount: real, phase: Phase, refusal: Refusal) {
    && Grounds(disk, mem, caps, expired, amount, phase, refusal)
    && forall r | Place(r) < Place(refusal) :: !Grounds(disk, mem, caps, expired, amount, phase, r)
  }

  lemma RefusalIsFirstGrounds(disk: seq<Ledger>, mem: Ledger, caps: Caps, expired: bool, amount: real, phase: Phase)
    requires Admit(disk, mem, caps, expired, amount, phase).Some?
    ensures FirstGrounds(disk, mem, caps, expired, amount, phase, Admit(disk, mem, caps, expired, amount, phase).value)
  {
    var refusal := Admit(disk, mem, caps, expired, amount, phase).value;
    forall r | Place(r) < Place(refusal) ensures !Grounds(disk, mem, caps, expired, amount, phase, r) {
    }
  }

  /** A reservation is admitted exactly when the run owes nothing beyond its reservations, has time and
      money left, no run of the campaign owes anything, and the amount fits under every cap that applies. */
  lemma AdmittedIff(disk: seq<Ledger>, mem: Ledger, caps: Caps, expired: bool, amount: real, phase: Phase)
    ensures Admit(disk, mem, caps, expired, amount, phase) == None <==>
      && amount >= 0.0 && !expired
      && mem.overflow <= 0.0 && (forall i | 0 <= i < |disk| :: disk[i].overflow <= 0.0)
      && mem.budget.cost < caps.run && mem.budget.cost + amount <= caps.run
      && Sum(seq(|disk|, i requires 0 <= i < |disk| => disk[i].budget.cost)) + amount <= caps.campaign
      && (phase == Capability ==>
            Sum(seq(|disk|, i requires 0 <= i < |disk| => disk[i].phases[Capability])) + amount <= caps.capability)
      && (phase == PublicTools ==>
            Sum(seq(|disk|, i requires 0 <= i < |disk| => disk[i].phases[PublicTools])) + amount <= caps.publicTools)
  {
    assert seq(|disk|, i requires 0 <= i < |disk| => disk[i].budget.cost) == Readings(disk, Spent);
    assert seq(|disk|, i requires 0 <= i < |disk| => disk[i].phases[Capability]) == Readings(disk, SpentIn(Capability));
    assert seq(|disk|, i requires 0 <= i < |disk| => disk[i].phases[PublicTools]) == Readings(disk, SpentIn(PublicTools));
  }

  /** An admitted amount fits under its caps on top of everything on record. */
  lemma AdmittedFits(disk: seq<Ledger>, mem: Ledger, caps: Caps, amount: real, phase: Phase, m: Meter)
    requires Admit(disk, mem, caps, false, amount, phase) == None && (m == Spent || m == SpentIn(phase))
    ensures CapOn(caps, m).Some? ==> Sum(Readings(disk, m)) + amount <= CapOn(caps, m).value
  {
  }

  /** The first call number after the counter that has no request evidence. */
  function NextNumber(counter: nat, requests: set<nat>): (n: nat)
    ensures counter < n && n !in requests
    ensures forall k | counter < k < n :: k in requests
    decreases |requests|
  {
    if counter + 1 !in requests then counter + 1
    else
      var n := NextNumber(counter + 1, requests - {counter + 1});
      assert forall k {:trigger k in requests} | counter + 1 < k < n :: k in requests - {counter + 1};
      n
  }

  // ------------------------------------------------- reservation and settlement

  /** The first k of the five in-memory updates of a reservation, in program order. */
  function ReserveUpdates(l: Ledger, k: nat, n: nat, p: Pending): Ledger
    requires k <= 5
  {
    var l := if k < 1 then l else l.(callCounter := n);
    var l := if k < 2 then l else l.(budget := l.budget.(calls := l.budget.calls + 1));
    var l := if k < 3 then l else l.(budget := l.budget.(cost := l.budget.cost + p.reserved));
    var l := if k < 4 then l else l.(phases := l.phases[p.phase := l.phases[p.phase] + p.reserved]);
    if k < 5 then l else l.(pending := l.pending[n := p])
  }

  function Positive(x: real): real { if x > 0.0 then x else 0.0 }

  function FileSettled(l: Ledger, bill: Bill): Ledger {
    var settled := l.budget.settled;
    l.(budget := l.budget.(settled := settled[bill.bucket := settled[bill.bucket] + bill.cost]))
  }

  /** The first k of the seven in-memory updates of a settlement, in program order. */
  function SettleUpdates(l: Ledger, k: nat, n: nat, bill: Bill): Ledger
    requires k <= 7 && n in l.pending
  {
    var p := l.pending[n];
    var delta := bill.cost - p.reserved;
    var l := if k < 1 then l else l.(pending := l.pending - {n});
    var l := if k < 2 then l else l.(budget := l.budget.(cost := l.budget.cost + delta));
    var l := if k < 3 then l else l.(phases := l.phases[p.phase := l.phases[p.phase] + delta]);
    var l := if k < 4 then l else l.(overflow := l.overflow + Positive(delta));
    var l := if k < 5 then l else FileSettled(l, bill);
    var l := if k < 6 then l else l.(budget := l.budget.(tokensIn := l.budget.tokensIn + bill.tokensIn));
    if k < 7 then l else l.(budget := l.budget.(tokensOut := l.budget.tokensOut + bill.tokensOut))
  }

  /** Which fields each number of updates of a reservation has changed. */
  lemma ReserveUpdatesInOrder(l: Ledger, k: nat, n: nat, p: Pending)
    requires k <= 5
    ensures var l' := ReserveUpdates(l, k, n, p);
      && l'.callCounter == (if k >= 1 then n else l.callCounter)
      && l'.budget == l.budget.(
           calls := if k >= 2 then l.budget.calls + 1 else l.budget.calls,
           cost := if k >= 3 then l.budget.cost + p.reserved else l.budget.cost)
      && l'.phases == (if k >= 4 then l.phases[p.phase := l.phases[p.phase] + p.reserved] else l.phases)
      && l'.pending == (if k >= 5 then l.pending[n := p] else l.pending)
      && l'.overflow == l.overflow
  {
  }

  /** The same for a settlement. */
  lemma SettleUpdatesInOrder(l: Ledger, k: nat, n: nat, bill: Bill)
    requires k <= 7 && n in l.pending
    ensures var l', p, delta := SettleUpdates(l, k, n, bill), l.pending[n], bill.cost - l.pending[n].reserved;
      && l'.callCounter == l.callCounter && l'.budget.calls == l.budget.calls
      && l'.pending == (if k >= 1 then l.pending - {n} else l.pending)
      && l'.budget.cost == (if k >= 2 then l.budget.cost + delta else l.budget.cost)
      && l'.phases == (if k >= 3 then l.phases[p.phase := l.phases[p.phase] + delta] else l.phases)
      && l'.overflow == (if k >= 4 && delta > 0.0 then l.overflow + delta else l.overflow)
      && l'.budget.settled == (
           if k >= 5 then l.budget.settled[bill.bucket := l.budget.settled[bill.bucket] + bill.cost] else l.budget.settled)
      && l'.budget.tokensIn == (if k >= 6 then l.budget.tokensIn + bill.tokensIn else l.budget.tokensIn)
      && l'.budget.tokensOut == (if k >= 7 then l.budget.tokensOut + bill.tokensOut else l.budget.tokensOut)
  {
  }

  /** A whole reservation. */
  function Reserve(l: Ledger, n: nat, p: Pending): Ledger {
    l.(callCounter := n,
       budget := l.budget.(calls := l.budget.calls + 1, cost := l.budget.cost + p.reserved),
       phases := l.phases[p.phase := l.phases[p.phase] + p.reserved],
       pending := l.pending[n := p])
  }

  /** A whole settlement. */
  function Settle(l: Ledger, n: nat, bill: Bill): Ledger
    requires n in l.pending
  {
    var p := l.pending[n];
    var delta := bill.cost - p.reserved;
    var settled := l.budget.settled;
    l.(pending := l.pending - {n},
       budget := l.budget.(
         cost := l.budget.cost + delta,
         settled := settled[bill.bucket := settled[bill.bucket] + bill.cost],
         tokensIn := l.budget.tokensIn + bill.tokensIn,
         tokensOut := l.budget.tokensOut + bill.tokensOut),
       phases := l.phases[p.phase := l.phases[p.phase] + delta],
       overflow := l.overflow + Positive(delta))
  }

  lemma WholeReserve(l: Ledger, n: nat, p: Pending)
    ensures Reserve(l, n, p) == ReserveUpdates(l, 5, n, p)
  {
  }

  lemma WholeSettle(l: Ledger, n: nat, bill: Bill)
    requires n in l.pending
    ensures Settle(l, n, bill) == SettleUpdates(l, 7, n, bill)
  {
  }

  // ------------------------------------------------------------- conservation

  ghost function PendingTotal(pending: map<nat, Pending>): real {
    ReservedOn(pending.Keys, pending)
  }

  ghost function ReservedOn(ns: set<nat>, pending: map<nat, Pending>): real
    requires ns <= pending.Keys
  {
    if ns == {} then 0.0
    else
      var n :| n in ns;
      pending[n].reserved + ReservedOn(ns - {n}, pending)
  }

  /** The total does not depend on the order in which calls are removed. */
  lemma {:induction false} ReservedOnRemove(ns: set<nat>, pending: map<nat, Pending>, n: nat)
    requires ns <= pending.Keys && n in ns
    ensures ReservedOn(ns, pending) == pending[n].reserved + ReservedOn(ns - {n}, pending)
    decreases |ns|
  {
    var c :| c in ns && ReservedOn(ns, pending) == pending[c].reserved + ReservedOn(ns - {c}, pending);
    if c != n {
      ReservedOnRemove(ns - {c}, pending, n);
      ReservedOnRemove(ns - {n}, pending, c);
      assert ns - {c} - {n} == ns - {n} - {c};
    }
  }

  lemma {:induction false} ReservedOnSame(ns: set<nat>, p: map<nat, Pending>, q: map<nat, Pending>)
    requires ns <= p.Keys && ns <= q.Keys
    requires forall n | n in ns :: p[n] == q[n]
    ensures ReservedOn(ns, p) == ReservedOn(ns, q)
    decreases |ns|
  {
    if ns != {} {
      var n :| n in ns;
      ReservedOnRemove(ns, p, n);
      ReservedOnRemove(ns, q, n);
      ReservedOnSame(ns - {n}, p, q);
    }
  }

  lemma PendingRemove(pending: map<nat, Pending>, n: nat)
    requires n in pending
    ensures PendingTotal(pending) == pending[n].reserved + PendingTotal(pending - {n})
  {
    ReservedOnRemove(pending.Keys, pending, n);
    assert (pending - {n}).Keys == pending.Keys - {n};
    ReservedOnSame(pending.Keys - {n}, pending, pending - {n});
  }

  lemma PendingInsert(pending: map<nat, Pending>, n: nat, p: Pending)
    requires n !in pending
    ensures PendingTotal(pending[n := p]) == PendingTotal(pending) + p.reserved
  {
    PendingRemove(pending[n := p], n);
    assert pending[n := p] - {n} == pending;
  }

  /** Money is conserved: what the run has spent is what it settled plus what it still owes,
      and the phases split the same amount. */
  ghost predicate Conserved(l: Ledger) {
    && l.budget.cost == SettledSum(l.budget.settled) + PendingTotal(l.pending)
    && PhaseSum(l.phases) == l.budget.cost
  }

  /** Pending calls carry numbers already issued. */
  predicate PendingKnown(l: Ledger) {
    forall n | n in l.pending :: n <= l.callCounter
  }

  ghost predicate Balanced(l: Ledger) {
    Conserved(l) && l.overflow >= 0.0 && PendingKnown(l)
  }

  predicate WithinRunCap(l: Ledger, caps: Caps) {
    l.budget.cost <= caps.run + l.overflow
  }

  /** An interrupted reservation conserves money exactly when the interruption comes before the
      cost is raised or after the pending entry is made, unless nothing was being reserved. */
  lemma InterruptedReserveBalancesIff(l: Ledger, k: nat, n: nat, p: Pending)
    requires Balanced(l) && k <= 5 && l.callCounter < n
    ensures Balanced(ReserveUpdates(l, k, n, p)) <==> (k <= 2 || k == 5 || p.reserved == 0.0)
  {
    assert n !in l.pending;
    PendingInsert(l.pending, n, p);
    PhaseSumAdd(l.phases, p.phase, p.reserved);
  }

  /** The same question for a settlement. */
  lemma InterruptedSettleBalancesIff(l: Ledger, k: nat, n: nat, bill: Bill)
    requires Balanced(l) && k <= 7 && n in l.pending
    ensures Balanced(SettleUpdates(l, k, n, bill)) <==>
      || k == 0
      || (k == 1 && l.pending[n].reserved == 0.0)
      || (k == 2 && l.pending[n].reserved == 0.0 && bill.cost == 0.0)
      || (3 <= k <= 4 && bill.cost == 0.0)
      || k >= 5
  {
    var p := l.pending[n];
    PendingRemove(l.pending, n);
    PhaseSumAdd(l.phases, p.phase, bill.cost - p.reserved);
    SettledSumAdd(l.budget.settled, bill.bucket, bill.cost);
  }

  /** An interrupted settlement breaks the run's own cap exactly when the cost has moved beyond it and the
      overflow has not been recorded. */
  lemma InterruptedSettleWithinCapIff(l: Ledger, caps: Caps, k: nat, n: nat, bill: Bill)
    requires WithinRunCap(l, caps) && k <= 7 && n in l.pending
    ensures WithinRunCap(SettleUpdates(l, k, n, bill), caps) <==>
      !(2 <= k <= 3 && l.budget.cost + bill.cost - l.pending[n].reserved > caps.run + l.overflow)
  {
  }

  /** A whole reservation conserves money and, once admitted, keeps the run's own cap. */
  lemma ReserveKeepsLedger(disk: seq<Ledger>, l: Ledger, caps: Caps, expired: bool, n: nat, p: Pending)
    requires Balanced(l) && l.callCounter < n
    requires Admit(disk, l, caps, expired, p.reserved, p.phase) == None
    ensures Balanced(Reserve(l, n, p)) && WithinRunCap(Reserve(l, n, p), caps)
  {
    WholeReserve(l, n, p);
    InterruptedReserveBalancesIff(l, 5, n, p);
  }

  lemma SettleBalances(l: Ledger, n: nat, bill: Bill)
    requires Balanced(l) && n in l.pending
    ensures Balanced(Settle(l, n, bill))
  {
    WholeSettle(l, n, bill);
    InterruptedSettleBalancesIff(l, 7, n, bill);
  }

  lemma SettleKeepsLedger(l: Ledger, caps: Caps, n: nat, bill: Bill)
    requires Balanced(l) && WithinRunCap(l, caps) && n in l.pending
    ensures Balanced(Settle(l, n, bill)) && WithinRunCap(Settle(l, n, bill), caps)
  {
    SettleBalances(l, n, bill);
  }
}
