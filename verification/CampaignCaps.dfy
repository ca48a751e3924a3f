/** The caps the campaign lock enforces on the spending that run.json files record: what every history
    keeps, and exactly which events let the record of a later one exceed a cap. What is truly billed is
    the business of CampaignBills. */
module CampaignCaps {
  import opened Outcomes
  import opened Sums
  import opened BudgetLedger
  import opened Campaign

  // ------------------------------------------------------- what a run can put on a meter

  function Exposure(l: Ledger, m: Meter): real { Reading(l, m) - l.overflow }

  function Max(x: real, y: real): real { if x >= y then x else y }

  /** The most a run can put on the meter by its next save. */
  function Weight(run: Run, m: Meter): real {
    if run.holder.Some? then Max(Exposure(run.disk, m), Exposure(run.holder.value.mem, m)) else Exposure(run.disk, m)
  }

  /** The events whose effect on a run's directory needs an admitted reservation. */
  predicate SavesAdmission(e: Event) { e.Reserved? || e.ReservedWithoutEvidence? }

  /** Taking a lock and interrupted updates are the events that reach a process's copy without an
      admission test. */
  predicate Untested(e: Event) { e.Acquire? || Interruption(e) }

  /** What such an event adds to the most its run can put on the meter. */
  function Charge(run: Run, e: Event, m: Meter): real
    requires CanDo(run, e)
  {
    if Untested(e) then Positive(Weight(After(run, e), m) - Weight(run, m)) else 0.0
  }

  function Recharged(s: State, strays: seq<real>, e: Event, m: Meter): seq<real>
    requires Enabled(s, e) && |strays| == |s|
  {
    if e.Create? then strays + [0.0] else strays[e.r := strays[e.r] + Charge(s[e.r], e, m)]
  }

  /** Run by run, what the untested events of a history have added on top of the given amounts. */
  ghost function Charged(s: State, strays: seq<real>, evs: seq<Event>, m: Meter): (r: seq<real>)
    requires Happens(s, evs) && |strays| == |s|
    ensures |r| == |Final(s, evs)|
    decreases |evs|
  {
    if evs == [] then strays else Charged(Apply(s, evs[0]), Recharged(s, strays, evs[0], m), evs[1..], m)
  }

  /** The caps of every run, present or created later, are at most the limit on this meter. */
  predicate CapsUnder(evs: seq<Event>, m: Meter, limit: real) {
    forall i | 0 <= i < |evs| && evs[i].Create? ::
      CapOn(evs[i].caps, m).Some? && CapOn(evs[i].caps, m).value <= limit
  }

  predicate RunOk(run: Run, stray: real, m: Meter, limit: real) {
    && CapOn(run.caps, m).Some? && CapOn(run.caps, m).value <= limit
    && run.disk.overflow >= 0.0
    && (forall l | l in run.copies :: l.overflow >= 0.0)
    && (run.holder.Some? ==> run.holder.value.mem.overflow >= 0.0)
    && Weight(run, m) - Exposure(run.disk, m) <= stray
  }

  function Loads(s: State, strays: seq<real>, m: Meter): seq<real>
    requires |strays| == |s|
  {
    seq(|s|, i requires 0 <= i < |s| => Weight(s[i], m) - strays[i])
  }

  predicate RunsOk(s: State, strays: seq<real>, m: Meter, limit: real)
    requires |strays| == |s|
  {
    forall r {:trigger RunOk(s[r], strays[r], m, limit)} | 0 <= r < |s| :: RunOk(s[r], strays[r], m, limit)
  }

  predicate CampaignOk(s: State, strays: seq<real>, m: Meter, limit: real) {
    |strays| == |s| && RunsOk(s, strays, m, limit) && Sum(Loads(s, strays, m)) <= limit
  }

  /** How far the first k updates of a reservation move a meter. */
  function ReserveShift(k: nat, p: Pending, m: Meter): real {
    if (m == Spent && k >= 3) || (m == SpentIn(p.phase) && k >= 4) then p.reserved else 0.0
  }

  /** How far the first k updates of a settlement move a meter, less what they record as overflow. */
  function SettleShift(k: nat, p: Pending, bill: Bill, m: Meter): real {
    var delta := bill.cost - p.reserved;
    (if (m == Spent && k >= 2) || (m == SpentIn(p.phase) && k >= 3) then delta else 0.0)
    - if k >= 4 then Positive(delta) else 0.0
  }

  lemma ReserveUpdatesExpose(l: Ledger, k: nat, n: nat, p: Pending, m: Meter)
    requires k <= 5
    ensures Exposure(ReserveUpdates(l, k, n, p), m) == Exposure(l, m) + ReserveShift(k, p, m)
    ensures ReserveUpdates(l, k, n, p).overflow == l.overflow
  {
  }

  lemma SettleUpdatesExpose(l: Ledger, k: nat, n: nat, bill: Bill, m: Meter)
    requires k <= 7 && n in l.pending
    ensures Exposure(SettleUpdates(l, k, n, bill), m) == Exposure(l, m) + SettleShift(k, l.pending[n], bill, m)
    ensures SettleUpdates(l, k, n, bill).overflow >= l.overflow
  {
  }

  // ------------------------------------------------------- every history stays in cap, strays aside

  lemma SettledExpose(l: Ledger, n: nat, bill: Bill, m: Meter)
    requires n in l.pending
    ensures Exposure(Settle(l, n, bill), m) <= Exposure(l, m) && Settle(l, n, bill).overflow >= l.overflow
  {
    WholeSettle(l, n, bill);
    SettleUpdatesExpose(l, 7, n, bill, m);
  }

  /** Apart from admissions, an event raises what a run can put on a meter by its charge at most. */
  lemma LoadFalls(run: Run, stray: real, e: Event, m: Meter, limit: real)
    requires RunOk(run, stray, m, limit) && CanDo(run, e) && !SavesAdmission(e)
    ensures Charge(run, e, m) >= 0.0 && RunOk(After(run, e), stray + Charge(run, e, m), m, limit)
    ensures Weight(After(run, e), m) <= Weight(run, m) + Charge(run, e, m)
  {
    match e
    case ReserveInterrupted(_, p, k) =>
      var mem := run.holder.value.mem;
      ReserveUpdatesExpose(mem, k, NextNumber(mem.callCounter, run.requests), p, m);
    case Settled(_, n, bill) =>
      SettledExpose(run.holder.value.mem, n, bill, m);
    case SettleInterrupted(_, n, bill, k) =>
      SettleUpdatesExpose(run.holder.value.mem, k, n, bill, m);
    case _ =>
  }

  /** A saved admission puts at most the reserved amount on the meter. */
  lemma AdmissionOnRun(run: Run, stray: real, e: Event, m: Meter, limit: real)
    requires RunOk(run, stray, m, limit)
    requires SavesAdmission(e) && CanDo(run, e)
    ensures RunOk(After(run, e), stray, m, limit) && Charge(run, e, m) == 0.0
    ensures m != Spent && m != SpentIn(e.p.phase) ==> Weight(After(run, e), m) <= Weight(run, m)
    ensures Weight(After(run, e), m) - stray <= Reading(run.disk, m) + e.p.reserved
  {
  }

  /** The amount admitted fits under the run's cap on top of everything on disk. */
  lemma AdmissionPaysFor(s: State, e: Event, m: Meter)
    requires SavesAdmission(e) && Enabled(s, e)
    ensures e.r < |s| && CanDo(s[e.r], e) && Apply(s, e) == s[e.r := After(s[e.r], e)]
    ensures (m == Spent || m == SpentIn(e.p.phase)) && CapOn(s[e.r].caps, m).Some? ==>
      Sum(Readings(Disks(s), m)) + e.p.reserved <= CapOn(s[e.r].caps, m).value
  {
    if m == Spent || m == SpentIn(e.p.phase) {
      AdmittedFits(Disks(s), s[e.r].holder.value.mem, s[e.r].caps, e.p.reserved, e.p.phase, m);
    }
  }

  /** A saved admission leaves a load that the admission test already paid for. */
  lemma AdmissionFits(s: State, strays: seq<real>, r: nat, e: Event, m: Meter, limit: real)
    requires CampaignOk(s, strays, m, limit) && r < |s|
    requires SavesAdmission(e) && CanDo(s[r], e)
    requires m == Spent || m == SpentIn(e.p.phase) ==> Sum(Readings(Disks(s), m)) + e.p.reserved <= limit
    ensures CampaignOk(s[r := After(s[r], e)], strays, m, limit)
  {
    var run := s[r];
    var after := After(run, e);
    AdmissionOnRun(run, strays[r], e, m, limit);
    assert strays[r := strays[r]] == strays;
    if m != Spent && m != SpentIn(e.p.phase) {
      ReplaceRun(s, strays, r, after, strays[r], m, limit);
    } else {
      ReplacePaidRun(s, strays, r, after, m, limit, e.p.reserved);
    }
  }

  lemma AdmissionUncharged(s: State, strays: seq<real>, e: Event, m: Meter)
    requires SavesAdmission(e) && Enabled(s, e) && |strays| == |s|
    ensures Recharged(s, strays, e, m) == strays
  {
    assert strays[e.r := strays[e.r] + 0.0] == strays;
  }

  lemma AdmissionKeepsCap(s: State, strays: seq<real>, e: Event, m: Meter, limit: real)
    requires CampaignOk(s, strays, m, limit) && SavesAdmission(e) && Enabled(s, e)
    ensures CampaignOk(Apply(s, e), strays, m, limit)
  {
    AdmissionPaysFor(s, e, m);
    assert RunOk(s[e.r], strays[e.r], m, limit);
    AdmissionFits(s, strays, e.r, e, m, limit);
  }

  lemma RunsOkUpdate(s: State, strays: seq<real>, r: nat, run: Run, stray: real, m: Meter, limit: real)
    requires |strays| == |s| && r < |s| && RunsOk(s, strays, m, limit) && RunOk(run, stray, m, limit)
    ensures RunsOk(s[r := run], strays[r := stray], m, limit)
  {
    var s', strays' := s[r := run], strays[r := stray];
    forall i | 0 <= i < |s'| ensures RunOk(s'[i], strays'[i], m, limit) {
      if i != r { assert RunOk(s[i], strays[i], m, limit); }
    }
  }

  /** One run may be replaced by another with no more load. */
  lemma ReplaceRun(s: State, strays: seq<real>, r: nat, run: Run, stray: real, m: Meter, limit: real)
    requires CampaignOk(s, strays, m, limit) && r < |s|
    requires RunOk(run, stray, m, limit) && Weight(run, m) - stray <= Weight(s[r], m) - strays[r]
    ensures CampaignOk(s[r := run], strays[r := stray], m, limit)
  {
    RunsOkUpdate(s, strays, r, run, stray, m, limit);
    LoadsMove(s, strays, r, run, stray, m);
  }

  lemma LoadsMove(s: State, strays: seq<real>, r: nat, run: Run, stray: real, m: Meter)
    requires |strays| == |s| && r < |s| && Weight(run, m) - stray <= Weight(s[r], m) - strays[r]
    ensures Sum(Loads(s[r := run], strays[r := stray], m)) <= Sum(Loads(s, strays, m))
  {
    LoadsUpdate(s, strays, r, run, stray, m);
    SumUpdate(Loads(s, strays, m), r, Weight(run, m) - stray);
  }

  lemma LoadsUpdate(s: State, strays: seq<real>, r: nat, run: Run, stray: real, m: Meter)
    requires |strays| == |s| && r < |s|
    ensures Loads(s[r := run], strays[r := stray], m) == Loads(s, strays, m)[r := Weight(run, m) - stray]
  {
  }

  lemma LoadsPaid(s: State, strays: seq<real>, r: nat, run: Run, m: Meter, limit: real, amount: real)
    requires |strays| == |s| && r < |s| && RunsOk(s, strays, m, limit)
    requires Weight(run, m) - strays[r] <= Reading(s[r].disk, m) + amount
    ensures Sum(Loads(s[r := run], strays, m)) <= Sum(Readings(Disks(s), m)) + amount
  {
    var readings, loads := Readings(Disks(s), m), Loads(s[r := run], strays, m);
    var paid := readings[r := readings[r] + amount];
    forall i | 0 <= i < |s|
      ensures loads[i] <= paid[i]
    {
      assert RunOk(s[i], strays[i], m, limit);
    }
    SumMonotone(loads, paid);
    SumUpdate(readings, r, readings[r] + amount);
  }

  /** One run may take an amount that fits under the limit on top of everything on disk. */
  lemma ReplacePaidRun(s: State, strays: seq<real>, r: nat, run: Run, m: Meter, limit: real, amount: real)
    requires CampaignOk(s, strays, m, limit) && r < |s|
    requires RunOk(run, strays[r], m, limit) && Weight(run, m) - strays[r] <= Reading(s[r].disk, m) + amount
    requires Sum(Readings(Disks(s), m)) + amount <= limit
    ensures CampaignOk(s[r := run], strays, m, limit)
  {
    RunsOkUpdate(s, strays, r, run, strays[r], m, limit);
    assert strays[r := strays[r]] == strays;
    LoadsPaid(s, strays, r, run, m, limit, amount);
  }

  lemma AddRun(s: State, strays: seq<real>, run: Run, m: Meter, limit: real)
    requires CampaignOk(s, strays, m, limit)
    requires RunOk(run, 0.0, m, limit) && Weight(run, m) == 0.0
    ensures CampaignOk(s + [run], strays + [0.0], m, limit)
  {
    forall i | 0 <= i < |s + [run]| ensures RunOk((s + [run])[i], (strays + [0.0])[i], m, limit) {
      if i < |s| { assert RunOk(s[i], strays[i], m, limit); }
    }
    assert Loads(s + [run], strays + [0.0], m) == Loads(s, strays, m) + [Weight(run, m) - 0.0];
    SumAppend(Loads(s, strays, m), Weight(run, m) - 0.0);
  }

  lemma MoveKeepsRun(s: State, strays: seq<real>, e: Event, m: Meter, limit: real)
    requires |strays| == |s| && RunsOk(s, strays, m, limit) && Enabled(s, e) && !e.Create? && !SavesAdmission(e)
    ensures e.r < |s| && CanDo(s[e.r], e) && Apply(s, e) == s[e.r := After(s[e.r], e)]
    ensures Recharged(s, strays, e, m) == strays[e.r := strays[e.r] + Charge(s[e.r], e, m)]
    ensures RunOk(After(s[e.r], e), strays[e.r] + Charge(s[e.r], e, m), m, limit)
    ensures Weight(After(s[e.r], e), m) <= Weight(s[e.r], m) + Charge(s[e.r], e, m)
  {
    assert RunOk(s[e.r], strays[e.r], m, limit);
    LoadFalls(s[e.r], strays[e.r], e, m, limit);
  }

  lemma MoveKeepsRuns(s: State, strays: seq<real>, e: Event, m: Meter, limit: real)
    requires |strays| == |s| && RunsOk(s, strays, m, limit) && Enabled(s, e) && !e.Create? && !SavesAdmission(e)
    ensures |Recharged(s, strays, e, m)| == |Apply(s, e)| && RunsOk(Apply(s, e), Recharged(s, strays, e, m), m, limit)
  {
    MoveKeepsRun(s, strays, e, m, limit);
    RunsOkUpdate(s, strays, e.r, After(s[e.r], e), strays[e.r] + Charge(s[e.r], e, m), m, limit);
  }

  lemma MoveKeepsLoads(s: State, strays: seq<real>, e: Event, m: Meter, limit: real)
    requires |strays| == |s| && RunsOk(s, strays, m, limit) && Enabled(s, e) && !e.Create? && !SavesAdmission(e)
    ensures |Recharged(s, strays, e, m)| == |Apply(s, e)|
    ensures Sum(Loads(Apply(s, e), Recharged(s, strays, e, m), m)) <= Sum(Loads(s, strays, m))
  {
    MoveKeepsRun(s, strays, e, m, limit);
    LoadsMove(s, strays, e.r, After(s[e.r], e), strays[e.r] + Charge(s[e.r], e, m), m);
  }

  lemma MoveKeepsCap(s: State, strays: seq<real>, e: Event, m: Meter, limit: real)
    requires CampaignOk(s, strays, m, limit) && Enabled(s, e) && !e.Create? && !SavesAdmission(e)
    ensures CampaignOk(Apply(s, e), Recharged(s, strays, e, m), m, limit)
  {
    MoveKeepsRuns(s, strays, e, m, limit);
    MoveKeepsLoads(s, strays, e, m, limit);
  }

  lemma CreateKeepsCap(s: State, strays: seq<real>, e: Event, m: Meter, limit: real)
    requires CampaignOk(s, strays, m, limit) && e.Create? && Enabled(s, e)
    requires CapOn(e.caps, m).Some? && CapOn(e.caps, m).value <= limit
    ensures CampaignOk(Apply(s, e), Recharged(s, strays, e, m), m, limit)
  {
    AddRun(s, strays, NewRun(e.caps), m, limit);
  }

  lemma StepKeepsCap(s: State, strays: seq<real>, e: Event, m: Meter, limit: real)
    requires CampaignOk(s, strays, m, limit) && Enabled(s, e)
    requires e.Create? ==> CapOn(e.caps, m).Some? && CapOn(e.caps, m).value <= limit
    ensures CampaignOk(Apply(s, e), Recharged(s, strays, e, m), m, limit)
  {
    if e.Create? {
      CreateKeepsCap(s, strays, e, m, limit);
    } else if SavesAdmission(e) {
      AdmissionUncharged(s, strays, e, m);
      AdmissionKeepsCap(s, strays, e, m, limit);
    } else {
      MoveKeepsCap(s, strays, e, m, limit);
    }
  }

  lemma {:induction false} CapKeptFrom(s: State, strays: seq<real>, evs: seq<Event>, m: Meter, limit: real)
    requires CampaignOk(s, strays, m, limit)
    requires Happens(s, evs) && CapsUnder(evs, m, limit)
    ensures CampaignOk(Final(s, evs), Charged(s, strays, evs, m), m, limit)
    decreases |evs|
  {
    if evs != [] {
      StepKeepsCap(s, strays, evs[0], m, limit);
      CapKeptFrom(Apply(s, evs[0]), Recharged(s, strays, evs[0], m), evs[1..], m, limit);
    }
  }

  lemma CampaignBound(s: State, strays: seq<real>, m: Meter, limit: real)
    requires CampaignOk(s, strays, m, limit)
    ensures Sum(Readings(Disks(s), m)) <= limit + Sum(Overflows(Disks(s))) + Sum(strays)
  {
    var disk := Disks(s);
    var net := seq(|s|, i requires 0 <= i < |s| => Exposure(s[i].disk, m) - strays[i]);
    var slack := seq(|s|, i requires 0 <= i < |s| => s[i].disk.overflow + strays[i]);
    SumMonotone(net, Loads(s, strays, m));
    SumAdd(Overflows(disk), strays, slack);
    SumAdd(net, slack, Readings(disk, m));
  }

  /** Campaign and phase caps. However any number of runs interleave, whatever copies their locks are
      taken on and whichever updates are interrupted, the durable spending on a capped meter is at
      most the limit, plus the recorded overflow, plus what the untested events added. */
  lemma CampaignCapSafe(evs: seq<Event>, m: Meter, limit: real)
    requires Happens([], evs) && CapsUnder(evs, m, limit) && 0.0 <= limit
    ensures var s := Final([], evs);
      Sum(Readings(Disks(s), m)) <= limit + Sum(Overflows(Disks(s))) + Sum(Charged([], [], evs, m))
  {
    CapKeptFrom([], [], evs, m, limit);
    CampaignBound(Final([], evs), Charged([], [], evs, m), m, limit);
  }

  // ------------------------------------------------------- when the cap is exact

  /** The event leaves its process a copy that shows more on the meter, less overflow, than run.json
      does: a lock taken on such a copy, or a reservation or settlement cut where the meter has
      moved and the overflow has not. */
  predicate Raises(run: Run, e: Event, m: Meter)
    requires CanDo(run, e)
  {
    match e
    case Acquire(_, copy) => Exposure(copy, m) > Exposure(run.disk, m)
    case ReserveInterrupted(_, p, k) =>
      Exposure(run.holder.value.mem, m) + ReserveShift(k, p, m) > Exposure(run.disk, m)
    case SettleInterrupted(_, n, bill, k) =>
      var mem := run.holder.value.mem;
      Exposure(mem, m) + SettleShift(k, mem.pending[n], bill, m) > Exposure(run.disk, m)
    case _ => false
  }

  ghost predicate Careful(s: State, evs: seq<Event>, m: Meter)
    requires Happens(s, evs)
    decreases |evs|
  {
    evs != [] ==>
      && (!evs[0].Create? ==> !Raises(s[evs[0].r], evs[0], m))
      && Careful(Apply(s, evs[0]), evs[1..], m)
  }

  /** A process's copy shows no more than run.json does. */
  predicate Covered(run: Run, m: Meter) {
    run.holder.Some? ==> Exposure(run.holder.value.mem, m) <= Exposure(run.disk, m)
  }

  lemma RaisesIff(run: Run, e: Event, m: Meter)
    requires CanDo(run, e) && Untested(e)
    ensures Raises(run, e, m) <==> !Covered(After(run, e), m)
  {
    match e
    case ReserveInterrupted(_, p, k) =>
      var mem := run.holder.value.mem;
      ReserveUpdatesExpose(mem, k, NextNumber(mem.callCounter, run.requests), p, m);
    case SettleInterrupted(_, n, bill, k) =>
      SettleUpdatesExpose(run.holder.value.mem, k, n, bill, m);
    case _ =>
  }

  lemma CoveredKept(run: Run, e: Event, m: Meter)
    requires CanDo(run, e) && Covered(run, m) && !Raises(run, e, m)
    ensures Covered(After(run, e), m) && Charge(run, e, m) == 0.0
  {
    if Untested(e) { RaisesIff(run, e, m); }
  }

  predicate AllCovered(s: State, m: Meter) {
    forall r {:trigger Covered(s[r], m)} | 0 <= r < |s| :: Covered(s[r], m)
  }

  predicate NoStrays(strays: seq<real>) { forall i | 0 <= i < |strays| :: strays[i] == 0.0 }

  lemma CoveredUpdate(s: State, r: nat, run: Run, m: Meter)
    requires AllCovered(s, m) && r < |s| && Covered(run, m)
    ensures AllCovered(s[r := run], m)
  {
    var s' := s[r := run];
    forall i | 0 <= i < |s'| ensures Covered(s'[i], m) {
      if i != r { assert Covered(s[i], m); }
    }
  }

  lemma CoveredAppend(s: State, run: Run, m: Meter)
    requires AllCovered(s, m) && Covered(run, m)
    ensures AllCovered(s + [run], m)
  {
    var s' := s + [run];
    forall i | 0 <= i < |s'| ensures Covered(s'[i], m) {
      if i < |s| { assert Covered(s[i], m); }
    }
  }

  lemma CarefulStep(s: State, strays: seq<real>, e: Event, m: Meter)
    requires Enabled(s, e) && |strays| == |s| && AllCovered(s, m) && NoStrays(strays)
    requires e.Create? || !Raises(s[e.r], e, m)
    ensures AllCovered(Apply(s, e), m) && NoStrays(Recharged(s, strays, e, m))
  {
    if !e.Create? {
      assert Covered(s[e.r], m);
      CoveredKept(s[e.r], e, m);
      CoveredUpdate(s, e.r, After(s[e.r], e), m);
    } else {
      CoveredAppend(s, NewRun(e.caps), m);
    }
  }

  lemma {:induction false} CarefulUncharged(s: State, strays: seq<real>, evs: seq<Event>, m: Meter)
    requires Happens(s, evs) && Careful(s, evs, m) && |strays| == |s|
    requires AllCovered(s, m) && NoStrays(strays)
    ensures AllCovered(Final(s, evs), m) && NoStrays(Charged(s, strays, evs, m))
    decreases |evs|
  {
    if evs != [] {
      CarefulStep(s, strays, evs[0], m);
      CarefulUncharged(Apply(s, evs[0]), Recharged(s, strays, evs[0], m), evs[1..], m);
    }
  }

  lemma {:induction false} SumZero(xs: seq<real>)
    requires NoStrays(xs)
    ensures Sum(xs) == 0.0
  {
    if |xs| != 0 {
      SumZero(xs[..|xs| - 1]);
    }
  }

  predicate Within(s: State, m: Meter, limit: real) {
    Sum(Readings(Disks(s), m)) <= limit + Sum(Overflows(Disks(s)))
  }

  /** Without events that raise the meter the cap on the record is exact: limit plus recorded overflow. */
  lemma CarefulCapSafe(evs: seq<Event>, m: Meter, limit: real)
    requires Happens([], evs) && Careful([], evs, m) && CapsUnder(evs, m, limit) && 0.0 <= limit
    ensures Within(Final([], evs), m, limit)
  {
    CampaignCapSafe(evs, m, limit);
    CarefulUncharged([], [], evs, m);
    SumZero(Charged([], [], evs, m));
  }

  // ------------------------------------------------------- every raising event breaks the cap

  /** A lock is taken freshly when the copy read before locking is still what is on disk. */
  ghost predicate Fresh(s: State, evs: seq<Event>)
    requires Happens(s, evs)
    decreases |evs|
  {
    evs != [] ==>
      && (evs[0].Acquire? ==> evs[0].copy == s[evs[0].r].disk)
      && Fresh(Apply(s, evs[0]), evs[1..])
  }

  /** Fresh locks and whole updates raise nothing. */
  lemma {:induction false} FreshIsCareful(s: State, evs: seq<Event>, m: Meter)
    requires Happens(s, evs) && Fresh(s, evs) && Uninterrupted(evs)
    ensures Careful(s, evs, m)
    decreases |evs|
  {
    if evs != [] { FreshIsCareful(Apply(s, evs[0]), evs[1..], m); }
  }

  predicate Overdrawn(s: State) {
    exists r :: 0 <= r < |s| && s[r].disk.overflow > 0.0
  }

  /** Caps that leave the amount to be admitted on this meter and nothing beyond it. */
  function CapsFor(s: State, m: Meter, limit: real, amount: real): Caps {
    var free := Max(1.0, Sum(Readings(Disks(s), Spent)) + amount);
    match m
    case Spent => Caps(Max(1.0, amount), limit, limit, limit)
    case SpentIn(_) => Caps(Max(1.0, amount), free, limit, limit)
  }

  function PendingFor(m: Meter, amount: Amount): Pending {
    Pending(amount, "", if m.Spent? then Generation else m.phase)
  }

  predicate IsCapped(m: Meter) { m != SpentIn(Generation) }

  lemma ReadingsGrow(s: State, run: Run, m: Meter)
    ensures Sum(Readings(Disks(s + [run]), m)) == Sum(Readings(Disks(s), m)) + Reading(run.disk, m)
    ensures Sum(Overflows(Disks(s + [run]))) == Sum(Overflows(Disks(s))) + run.disk.overflow
  {
    assert Readings(Disks(s + [run]), m) == Readings(Disks(s), m) + [Reading(run.disk, m)];
    assert Overflows(Disks(s + [run])) == Overflows(Disks(s)) + [run.disk.overflow];
  }

  lemma ReadingsMove(s: State, r: nat, run: Run, m: Meter)
    requires r < |s|
    ensures Sum(Readings(Disks(s[r := run]), m)) == Sum(Readings(Disks(s), m)) - Reading(s[r].disk, m) + Reading(run.disk, m)
    ensures Sum(Overflows(Disks(s[r := run]))) == Sum(Overflows(Disks(s))) - s[r].disk.overflow + run.disk.overflow
  {
    SumUpdate(Readings(Disks(s), m), r, Reading(run.disk, m));
    SumUpdate(Overflows(Disks(s)), r, run.disk.overflow);
    assert Readings(Disks(s[r := run]), m) == Readings(Disks(s), m)[r := Reading(run.disk, m)];
    assert Overflows(Disks(s[r := run])) == Overflows(Disks(s))[r := run.disk.overflow];
  }

  function Opened(caps: Caps): Run { Run(EMPTY_LEDGER, caps, {}, {EMPTY_LEDGER}, None, [], NO_PHASE_COSTS) }

  function Started(caps: Caps): Run {
    Run(EMPTY_LEDGER, caps, {}, {EMPTY_LEDGER}, Some(Holder(EMPTY_LEDGER, false, None)), [], NO_PHASE_COSTS)
  }

  /** A fresh and whole history with one event more in front. */
  lemma Before(s: State, e: Event, rest: seq<Event>) returns (evs: seq<Event>)
    requires Enabled(s, e) && (e.Acquire? ==> e.copy == s[e.r].disk) && !Interruption(e)
    requires Happens(Apply(s, e), rest) && Fresh(Apply(s, e), rest) && Uninterrupted(rest)
    ensures evs == [e] + rest && Happens(s, evs) && Final(s, evs) == Final(Apply(s, e), rest)
    ensures Fresh(s, evs) && Uninterrupted(evs)
  {
    evs := [e] + rest;
    assert evs[1..] == rest;
  }

  /** A process creates a run, opens it and takes its lock; the rest happens after that. */
  lemma StartRun(s: State, caps: Caps, rest: seq<Event>) returns (evs: seq<Event>)
    requires Enabled(s, Create(caps))
    requires Happens(s + [Started(caps)], rest) && Fresh(s + [Started(caps)], rest) && Uninterrupted(rest)
    ensures evs == [Create(caps), Open(|s|), Acquire(|s|, EMPTY_LEDGER)] + rest
    ensures Happens(s, evs) && Final(s, evs) == Final(s + [Started(caps)], rest)
    ensures Fresh(s, evs) && Uninterrupted(evs)
  {
    var n, none: set<Ledger> := |s|, {};
    assert none + {EMPTY_LEDGER} == {EMPTY_LEDGER};
    var s1, s2, s3 := s + [NewRun(caps)], s + [Opened(caps)], s + [Started(caps)];
    assert s1[n := Opened(caps)] == s2 && s2[n := Started(caps)] == s3;
    evs := Before(s2, Acquire(n, EMPTY_LEDGER), rest);
    evs := Before(s1, Open(n), evs);
    evs := Before(s, Create(caps), evs);
  }

  /** The amount left under the limit can be admitted, to a run made for it. */
  lemma RoomAdmitted(s: State, m: Meter, limit: real, amount: Amount)
    requires IsCapped(m) && 0.0 < limit && !Overdrawn(s) && Sum(Readings(Disks(s), m)) + amount <= limit
    ensures var caps := CapsFor(s, m, limit, amount);
      Admitted(s + [Started(caps)], |s|, PendingFor(m, amount))
  {
    var caps := CapsFor(s, m, limit, amount);
    var s' := s + [Started(caps)];
    ReadingsGrow(s, Started(caps), m);
    ReadingsGrow(s, Started(caps), Spent);
    forall i | 0 <= i < |Disks(s')| ensures Disks(s')[i].overflow <= 0.0 {
      if i < |s| { assert s[i].disk.overflow <= 0.0; }
    }
  }

  /** The run made for an amount, once the amount is reserved. */
  function Holding(caps: Caps, n: nat, p: Pending): Run { After(Started(caps), Reserved(n, p)) }

  lemma HoldingReads(caps: Caps, n: nat, m: Meter, amount: Amount)
    ensures Reading(Holding(caps, n, PendingFor(m, amount)).disk, m) == amount
    ensures Holding(caps, n, PendingFor(m, amount)).disk.overflow == 0.0
  {
  }

  /** A new run takes the room there is. */
  lemma RoomTaken(s: State, m: Meter, limit: real) returns (full: State, caps: Caps, p: Pending)
    requires IsCapped(m) && 0.0 < limit && !Overdrawn(s)
    requires Sum(Overflows(Disks(s))) == 0.0 && Sum(Readings(Disks(s), m)) <= limit
    ensures caps.run > 0.0 && caps.campaign > 0.0 && caps.capability > 0.0 && caps.publicTools > 0.0
    ensures CapOn(caps, m) == Some(limit)
    ensures full == s + [Holding(caps, |s|, p)]
    ensures Enabled(s + [Started(caps)], Reserved(|s|, p)) && Apply(s + [Started(caps)], Reserved(|s|, p)) == full
    ensures Sum(Overflows(Disks(full))) == 0.0 && Sum(Readings(Disks(full), m)) == limit
  {
    var room, n := limit - Sum(Readings(Disks(s), m)), |s|;
    caps, p := CapsFor(s, m, limit, room), PendingFor(m, room);
    full := s + [Holding(caps, n, p)];
    RoomAdmitted(s, m, limit, room);
    assert (s + [Started(caps)])[n := Holding(caps, n, p)] == full;
    HoldingReads(caps, n, m, room);
    ReadingsGrow(s, Holding(caps, n, p), m);
  }

  lemma SavedExceeds(s: State, r: nat, m: Meter, limit: real)
    requires r < |s| && s[r].holder.Some? && !Covered(s[r], m)
    requires Sum(Overflows(Disks(s))) == 0.0 && Sum(Readings(Disks(s), m)) == limit
    ensures !Within(Apply(s, Saved(r)), m, limit)
  {
    ReadingsMove(s, r, After(s[r], Saved(r)), m);
  }

  lemma SaveOnly(s: State, r: nat) returns (evs: seq<Event>)
    requires r < |s| && s[r].holder.Some?
    ensures evs == [Saved(r)] && Happens(s, evs) && Final(s, evs) == Apply(s, Saved(r))
    ensures Fresh(s, evs) && Uninterrupted(evs)
  {
    evs := Before(s, Saved(r), []);
  }

  /** A copy that shows more than its run.json breaks the cap: a new run takes the room there is, and
      then the copy is saved. */
  lemma UncoveredBreaksCap(s: State, r: nat, m: Meter, limit: real) returns (evs: seq<Event>)
    requires IsCapped(m) && 0.0 < limit && r < |s| && s[r].holder.Some? && !Covered(s[r], m)
    requires !Overdrawn(s) && Sum(Overflows(Disks(s))) == 0.0 && Sum(Readings(Disks(s), m)) <= limit
    ensures Happens(s, evs) && Fresh(s, evs) && Uninterrupted(evs) && CapsUnder(evs, m, limit)
    ensures !Within(Final(s, evs), m, limit)
  {
    var full, caps, p := RoomTaken(s, m, limit);
    assert full[r] == s[r];
    SavedExceeds(full, r, m, limit);
    var last := SaveOnly(full, r);
    evs := ReservedFirst(s, caps, p, last);
    OneCreation(caps, |s|, p, r, m, limit);
    assert Final(s, evs) == Apply(full, Saved(r));
  }

  lemma OneCreation(caps: Caps, n: nat, p: Pending, r: nat, m: Meter, limit: real)
    requires CapOn(caps, m) == Some(limit)
    ensures CapsUnder([Create(caps), Open(n), Acquire(n, EMPTY_LEDGER), Reserved(n, p)] + [Saved(r)], m, limit)
  {
  }

  lemma ReservedFirst(s: State, caps: Caps, p: Pending, rest: seq<Event>) returns (evs: seq<Event>)
    requires Enabled(s, Create(caps)) && Enabled(s + [Started(caps)], Reserved(|s|, p))
    requires var full := Apply(s + [Started(caps)], Reserved(|s|, p));
      Happens(full, rest) && Fresh(full, rest) && Uninterrupted(rest)
    ensures evs == [Create(caps), Open(|s|), Acquire(|s|, EMPTY_LEDGER), Reserved(|s|, p)] + rest
    ensures Happens(s, evs) && Final(s, evs) == Final(Apply(s + [Started(caps)], Reserved(|s|, p)), rest)
    ensures Fresh(s, evs) && Uninterrupted(evs)
  {
    evs := Before(s + [Started(caps)], Reserved(|s|, p), rest);
    evs := StartRun(s, caps, evs);
  }

  /** In a careful history without recorded overflow, everything is under the limit. */
  lemma CarefulState(evs: seq<Event>, m: Meter, limit: real)
    requires Happens([], evs) && Careful([], evs, m) && CapsUnder(evs, m, limit) && 0.0 <= limit
    requires !Overdrawn(Final([], evs))
    ensures Sum(Overflows(Disks(Final([], evs)))) == 0.0 && Sum(Readings(Disks(Final([], evs)), m)) <= limit
  {
    var s, strays := Final([], evs), Charged([], [], evs, m);
    CarefulCapSafe(evs, m, limit);
    CapKeptFrom([], [], evs, m, limit);
    forall i | 0 <= i < |s| ensures s[i].disk.overflow == 0.0 {
      assert RunOk(s[i], strays[i], m, limit);
    }
    SumZero(Overflows(Disks(s)));
  }

  /** A later history that takes no lock and interrupts no update in a way that raises the meter. */
  ghost predicate Continues(s: State, evs: seq<Event>, m: Meter, limit: real) {
    Happens(s, evs) && Careful(s, evs, m) && CapsUnder(evs, m, limit)
  }

  /** Exactly the raising events let the record break the cap: after any careful history without recorded overflow,
      an event leaves every careful continuation within the limit exactly when it raises nothing. */
  lemma StaysWithinIff(before: seq<Event>, e: Event, m: Meter, limit: real)
    requires Happens([], before) && Careful([], before, m) && CapsUnder(before, m, limit)
    requires IsCapped(m) && 0.0 < limit && !Overdrawn(Final([], before))
    requires Enabled(Final([], before), e) && !e.Create?
    ensures var s := Final([], before);
      (forall after | Continues(Apply(s, e), after, m, limit) :: Within(Final(Apply(s, e), after), m, limit))
        <==> !Raises(s[e.r], e, m)
  {
    var s := Final([], before);
    var s' := Apply(s, e);
    if Raises(s[e.r], e, m) {
      CarefulState(before, m, limit);
      RaisingShows(s, e, m);
      var after := UncoveredBreaksCap(s', e.r, m, limit);
      FreshIsCareful(s', after, m);
      assert Continues(s', after, m, limit);
    } else {
      forall after | Continues(s', after, m, limit) ensures Within(Final(s', after), m, limit) {
        CarefulThrough(before, e, after, m, limit);
      }
    }
  }

  /** A raising event leaves every run.json as it was and an uncovered copy. */
  lemma RaisingShows(s: State, e: Event, m: Meter)
    requires Enabled(s, e) && !e.Create? && Raises(s[e.r], e, m)
    ensures Disks(Apply(s, e)) == Disks(s) && |Apply(s, e)| == |s|
    ensures Overdrawn(Apply(s, e)) == Overdrawn(s)
    ensures Apply(s, e)[e.r].holder.Some? && !Covered(Apply(s, e)[e.r], m)
  {
    RaisesIff(s[e.r], e, m);
    forall i | 0 <= i < |s| ensures Apply(s, e)[i].disk == s[i].disk {}
  }

  lemma {:induction false} CarefulApart(s: State, before: seq<Event>, after: seq<Event>, m: Meter)
    requires Happens(s, before) && Careful(s, before, m)
    requires Happens(Final(s, before), after) && Careful(Final(s, before), after, m)
    ensures Happens(s, before + after) && Careful(s, before + after, m)
    ensures Final(s, before + after) == Final(Final(s, before), after)
    decreases |before|
  {
    if before == [] {
      assert before + after == after;
    } else {
      assert (before + after)[1..] == before[1..] + after;
      CarefulApart(Apply(s, before[0]), before[1..], after, m);
    }
  }

  lemma CarefulThrough(before: seq<Event>, e: Event, after: seq<Event>, m: Meter, limit: real)
    requires Happens([], before) && Careful([], before, m) && CapsUnder(before, m, limit) && 0.0 < limit
    requires Enabled(Final([], before), e) && !e.Create? && !Raises(Final([], before)[e.r], e, m)
    requires Continues(Apply(Final([], before), e), after, m, limit)
    ensures Within(Final(Apply(Final([], before), e), after), m, limit)
  {
    var s, tail := Final([], before), [e] + after;
    assert tail[1..] == after;
    CarefulApart([], before, tail, m);
    assert CapsUnder(before + tail, m, limit);
    CarefulCapSafe(before + tail, m, limit);
  }

  // ------------------------------------------------------- the raising events of fresh locks

  /** With the copy still what is on disk, exactly these interruptions raise a meter: a reservation
      of something after the cost (for its phase, the phase's cost) was raised, and a settlement
      above its reservation between that moment and the recording of the overflow. */
  lemma InterruptionRaisesIff(run: Run, e: Event, m: Meter)
    requires CanDo(run, e) && Interruption(e) && run.holder.value.mem == run.disk
    ensures e.ReserveInterrupted? ==>
      (Raises(run, e, m) <==> e.p.reserved > 0.0 && ((m == Spent && e.k >= 3) || (m == SpentIn(e.p.phase) && e.k >= 4)))
    ensures e.SettleInterrupted? ==>
      var p := run.disk.pending[e.n];
      Raises(run, e, m) <==>
        e.bill.cost > p.reserved && ((m == Spent && 2 <= e.k <= 3) || (m == SpentIn(p.phase) && e.k == 3))
  {
  }
}
