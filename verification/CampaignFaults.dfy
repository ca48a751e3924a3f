/** Concrete histories in which the campaign's promises are not kept: an interrupted update and a lock
    taken on an old copy each push its record over its cap, such a lock erases recorded overflow and lets
    twice the cap be billed, and a bill cut before its overflow is recorded exceeds a run's cap. */
module CampaignFaults {
  import opened Outcomes
  import opened Sums
  import opened BudgetLedger
  import opened Campaign
  import opened CampaignCaps
  import opened CampaignOverflow
  import CampaignBills

  const CAPS := Caps(20.0, 10.0, 5.0, 5.0)

  /** A history that ends in state s, extended by one event to state s'. */
  lemma Then(evs: seq<Event>, s: State, e: Event, s': State) returns (more: seq<Event>)
    requires Happens([], evs) && Final([], evs) == s && CapsUnder(evs, Spent, 10.0)
    requires Enabled(s, e) && (e.Create? ==> e.caps == CAPS) && s' == Apply(s, e)
    ensures more == evs + [e]
    ensures Happens([], more) && Final([], more) == s' && CapsUnder(more, Spent, 10.0)
    ensures Uninterrupted(evs) && !Interruption(e) ==> Uninterrupted(more)
  {
    more := evs + [e];
    HappensThen([], evs, e);
  }

  function Idle(l: Ledger): Run { Run(l, CAPS, {}, {}, None, [], NO_PHASE_COSTS) }

  function Seen(l: Ledger): Run { Run(l, CAPS, {}, {l}, None, [], NO_PHASE_COSTS) }

  function Locked(l: Ledger): Run { Run(l, CAPS, {}, {l}, Some(Holder(l, false, None)), [], NO_PHASE_COSTS) }

  /** Two runs of one campaign, both locked, nothing spent. */
  lemma TwoRuns() returns (evs: seq<Event>, l: Ledger)
    ensures Happens([], evs) && Uninterrupted(evs) && CapsUnder(evs, Spent, 10.0)
    ensures Final([], evs) == [Locked(l), Locked(l)]
    ensures l.budget.cost == 0.0 && l.overflow == 0.0 && l.callCounter == 0 && l.pending == map[]
  {
    l := EMPTY_LEDGER;
    var none: set<Ledger> := {};
    assert none + {l} == {l};
    evs := [];
    evs := Then(evs, [], Create(CAPS), [Idle(l)]);
    evs := Then(evs, [Idle(l)], Create(CAPS), [Idle(l), Idle(l)]);
    evs := Then(evs, [Idle(l), Idle(l)], Open(0), [Seen(l), Idle(l)]);
    evs := Then(evs, [Seen(l), Idle(l)], Open(1), [Seen(l), Seen(l)]);
    evs := Then(evs, [Seen(l), Seen(l)], Acquire(0, l), [Locked(l), Seen(l)]);
    evs := Then(evs, [Locked(l), Seen(l)], Acquire(1, l), [Locked(l), Locked(l)]);
  }

  lemma SpentByTwo(s: State)
    requires |s| == 2
    ensures Sum(Readings(Disks(s), Spent)) == s[0].disk.budget.cost + s[1].disk.budget.cost
    ensures Sum(Overflows(Disks(s))) == s[0].disk.overflow + s[1].disk.overflow
  {
    assert s == [] + [s[0]] + [s[1]];
    ReadingsGrow([], s[0], Spent);
    ReadingsGrow([] + [s[0]], s[1], Spent);
  }

  /** The test a reservation passes when two runs share the campaign and neither overdrew. */
  lemma AdmittedByTwo(s: State, r: nat, p: Pending)
    requires |s| == 2 && r < 2 && Working(s[r]) && s[r].caps == CAPS && p.phase == Generation
    requires s[0].disk.overflow == s[1].disk.overflow == s[r].holder.value.mem.overflow == 0.0
    requires s[r].holder.value.mem.budget.cost < 20.0 && s[r].holder.value.mem.budget.cost + p.reserved <= 20.0
    requires s[0].disk.budget.cost + s[1].disk.budget.cost + p.reserved <= 10.0
    ensures Admitted(s, r, p)
  {
    SpentByTwo(s);
    assert forall i | 0 <= i < |Disks(s)| :: Disks(s)[i].overflow == 0.0;
  }

  /** A reservation interrupted after raising the cost is published by the process's last save,
      outside the campaign lock, after another run has taken what was left. */
  lemma InterruptionBreaksCap() returns (evs: seq<Event>)
    ensures Happens([], evs) && CapsUnder(evs, Spent, 10.0)
    ensures !Within(Final([], evs), Spent, 10.0)
  {
    var p, l: Ledger := Pending(10.0, "task", Generation), *;
    evs, l := TwoRuns();
    var s := [Locked(l), Locked(l)];
    assert NextNumber(0, {}) == 1;
    AdmittedByTwo(s, 0, p);
    var cut := ReserveUpdates(l, 3, 1, p);
    var a := Locked(l).(holder := Some(Holder(cut, true, None)));
    evs := Then(evs, s, ReserveInterrupted(0, p, 3), [a, s[1]]);
    AdmittedByTwo([a, s[1]], 1, p);
    var b := After(s[1], Reserved(1, p));
    evs := Then(evs, [a, s[1]], Reserved(1, p), [a, b]);
    evs := Then(evs, [a, b], Saved(0), [a.(disk := cut), b]);
    SpentByTwo([a.(disk := cut), b]);
  }

  /** The first run has reserved an amount and works on. */
  lemma FirstReserves(amount: Amount) returns (evs: seq<Event>, run: Run, l: Ledger)
    requires amount <= 10.0
    ensures Happens([], evs) && CapsUnder(evs, Spent, 10.0) && Uninterrupted(evs)
    ensures Final([], evs) == [run, Locked(l)] && l.budget.cost == 0.0 && l.overflow == 0.0 && l.callCounter == 0 && l.pending == map[]
    ensures run.caps == CAPS && Working(run) && run.holder.value.mem == run.disk
    ensures run.disk.budget.cost == amount && run.disk.overflow == 0.0
    ensures 1 in run.disk.pending && run.disk.pending[1].reserved == amount && run.holder.value.call == Some(1)
    ensures l in run.copies && PhaseSum(run.due) == amount && run.disk.pending[1].phase == Generation
  {
    evs, l := TwoRuns();
    var p, other := Pending(amount, "task", Generation), Locked(l);
    assert NextNumber(0, {}) == 1;
    AdmittedByTwo([other, other], 0, p);
    run := After(other, Reserved(0, p));
    evs := Then(evs, [other, other], Reserved(0, p), [run, other]);
  }

  /** A reservation read by a second process, then settled for `cost` by the first one. */
  lemma SettledBehindAReader(amount: Amount, cost: real) returns (evs: seq<Event>, run: Run, copy: Ledger, l: Ledger)
    requires amount <= 10.0
    ensures Happens([], evs) && CapsUnder(evs, Spent, 10.0) && Uninterrupted(evs)
    ensures Final([], evs) == [run, Locked(l)] && l.budget.cost == 0.0 && l.overflow == 0.0
    ensures run.caps == CAPS && run.holder.None? && copy in run.copies
    ensures run.disk.budget.cost == cost && run.disk.overflow == Positive(cost - amount)
    ensures copy.budget.cost == amount && copy.overflow == 0.0
  {
    var a;
    evs, a, l := FirstReserves(amount);
    var other, bill := Locked(l), Bill(cost, Flat, 0, 0);
    copy := a.disk;
    var b := After(a, Open(0));
    evs := Then(evs, [a, other], Open(0), [b, other]);
    var c := After(b, Settled(0, 1, bill));
    evs := Then(evs, [b, other], Settled(0, 1, bill), [c, other]);
    run := After(c, Left(0));
    evs := Then(evs, [c, other], Left(0), [run, other]);
  }

  /** A lock taken on a copy and the holder's first save. */
  lemma SavedOver(before: seq<Event>, run: Run, copy: Ledger, other: Run) returns (saved: Run)
    requires Happens([], before) && CapsUnder(before, Spent, 10.0) && Uninterrupted(before)
    requires Final([], before) == [run, other] && run.holder.None? && copy in run.copies
    ensures saved.disk == copy && saved.holder == Some(Holder(copy, false, None))
    ensures saved.due == run.due && saved.caps == run.caps && saved.requests == run.requests
    ensures var evs := before + [Acquire(0, copy)] + [Saved(0)];
      Happens([], evs) && CapsUnder(evs, Spent, 10.0) && Uninterrupted(evs) && Final([], evs) == [saved, other]
  {
    var stale := After(run, Acquire(0, copy));
    saved := After(stale, Saved(0));
    var evs := Then(before, [run, other], Acquire(0, copy), [stale, other]);
    evs := Then(evs, [stale, other], Saved(0), [saved, other]);
  }

  /** A process reads run.json, another one settles a call and leaves, and only then the first
      takes the lock: its save brings the old amount back after it has been spent elsewhere. */
  lemma StaleLockBreaksCap() returns (evs: seq<Event>)
    ensures Happens([], evs) && CapsUnder(evs, Spent, 10.0) && Uninterrupted(evs)
    ensures !Within(Final([], evs), Spent, 10.0)
  {
    var run, copy, l;
    evs, run, copy, l := SettledBehindAReader(10.0, 1.0);
    var p, other := Pending(9.0, "task", Generation), Locked(l);
    AdmittedByTwo([run, other], 1, p);
    var spent := After(other, Reserved(1, p));
    evs := Then(evs, [run, other], Reserved(1, p), [run, spent]);
    var saved := SavedOver(evs, run, copy, spent);
    evs := evs + [Acquire(0, copy)] + [Saved(0)];
    SpentByTwo([saved, spent]);
  }

  /** A campaign's only recorded overflow, erased by a lock taken on an old copy. */
  lemma OverflowErased() returns (before: seq<Event>, evs: seq<Event>, saved: Run, l: Ledger)
    ensures Happens([], before) && Overdrawn(Final([], before))
    ensures evs == before + [Acquire(0, saved.disk)] + [Saved(0)] && Happens([], evs) && Uninterrupted(evs)
    ensures CapsUnder(evs, Spent, 10.0) && Final([], evs) == [saved, Locked(l)]
    ensures saved.disk.budget.cost == 1.0 && saved.disk.overflow == 0.0 && l.budget.cost == 0.0 && l.overflow == 0.0
  {
    var run, copy;
    before, run, copy, l := SettledBehindAReader(1.0, 2.0);
    assert Final([], before)[0].disk.overflow > 0.0;
    saved := SavedOver(before, run, copy, Locked(l));
    evs := before + [Acquire(0, copy)] + [Saved(0)];
  }

  /** A campaign with recorded overflow admits a reservation again after a lock taken on an old copy. */
  lemma StaleLockReopensCampaign() returns (before: seq<Event>, after: seq<Event>)
    ensures Happens([], before) && Happens([], before + after) && Uninterrupted(before + after)
    ensures Overdrawn(Final([], before)) && !NoAdmission(after)
  {
    var evs, saved, l;
    before, evs, saved, l := OverflowErased();
    var p, other := Pending(1.0, "task", Generation), Locked(l);
    AdmittedByTwo([saved, other], 1, p);
    evs := Then(evs, [saved, other], Reserved(1, p), [saved, After(other, Reserved(1, p))]);
    after := ThreeMore(before, Acquire(0, saved.disk), Saved(0), Reserved(1, p));
    assert Admission(after[2]);
  }

  lemma ThreeMore(evs: seq<Event>, a: Event, b: Event, c: Event) returns (more: seq<Event>)
    ensures more == [a, b, c] && evs + [a] + [b] + [c] == evs + more
  {
    more := [a, b, c];
  }

  /** A bill above the run's cap, cut before its overflow is recorded and then saved. */
  lemma CutBillBreaksRunCap() returns (evs: seq<Event>)
    ensures Happens([], evs) && CapsUnder(evs, Spent, 10.0)
    ensures 0 < |Final([], evs)| && !WithinRunCap(Final([], evs)[0].disk, Final([], evs)[0].caps)
  {
    var a, l;
    evs, a, l := FirstReserves(10.0);
    var other, bill := Locked(l), Bill(22.0, Flat, 0, 0);
    var b := After(a, SettleInterrupted(0, 1, bill, 2));
    evs := Then(evs, [a, other], SettleInterrupted(0, 1, bill, 2), [b, other]);
    evs := Then(evs, [b, other], Saved(0), [b.(disk := b.holder.value.mem), other]);
  }

  /** One call of the first run, billed as reserved; its process leaves, and another one takes the lock on
      the empty file read before and saves it. */
  lemma BilledAndForgotten() returns (evs: seq<Event>, saved: Run, l: Ledger)
    ensures Happens([], evs) && CapsUnder(evs, Spent, 10.0) && Uninterrupted(evs)
    ensures Final([], evs) == [saved, Locked(l)] && l.budget.cost == 0.0 && l.overflow == 0.0 && l.callCounter == 0 && l.pending == map[]
    ensures saved.disk == l && saved.holder == Some(Holder(l, false, None)) && saved.caps == CAPS && PhaseSum(saved.due) == 10.0
  {
    var a;
    evs, a, l := FirstReserves(10.0);
    var other, bill := Locked(l), Bill(10.0, Flat, 0, 0);
    var b := After(a, Settled(0, 1, bill));
    CampaignBills.DueOn(a.due, Generation, 0.0);
    evs := Then(evs, [a, other], Settled(0, 1, bill), [b, other]);
    var c := After(b, Left(0));
    evs := Then(evs, [b, other], Left(0), [c, other]);
    saved := SavedOver(evs, c, l, other);
    evs := evs + [Acquire(0, l)] + [Saved(0)];
  }

  lemma ReservedNext(a: Run, p: Pending) returns (b: Run, n: nat)
    requires Working(a)
    ensures b == After(a, Reserved(0, p)) && b.caps == a.caps && Working(b) && Answerable(b.holder.value, n)
    ensures b.holder.value.mem == b.disk && b.disk.overflow == a.holder.value.mem.overflow
    ensures b.disk.budget.cost == a.holder.value.mem.budget.cost + p.reserved && b.disk.pending[n] == p
    ensures PhaseSum(b.due) == PhaseSum(a.due) + p.reserved
  {
    b, n := After(a, Reserved(0, p)), NextNumber(a.holder.value.mem.callCounter, a.requests);
    CampaignBills.DueOn(a.due, p.phase, p.reserved);
  }

  lemma BilledNext(b: Run, n: nat, bill: Bill) returns (c: Run)
    requires Working(b) && Answerable(b.holder.value, n) && bill.cost == b.holder.value.mem.pending[n].reserved
    ensures c == After(b, Settled(0, n, bill)) && c.disk.overflow == b.holder.value.mem.overflow
    ensures c.disk.budget.cost == b.holder.value.mem.budget.cost && PhaseSum(c.due) == PhaseSum(b.due)
  {
    c := After(b, Settled(0, n, bill));
    CampaignBills.DueOn(b.due, b.holder.value.mem.pending[n].phase, 0.0);
  }

  lemma TwiceBilled(c: Run, other: Run)
    requires other.disk.budget.cost == 0.0 && other.disk.overflow == 0.0 && PhaseSum(other.due) == 0.0
    requires c.disk.budget.cost == 10.0 && c.disk.overflow == 0.0 && PhaseSum(c.due) == 20.0
    ensures Within([c, other], Spent, 10.0) && !Overdrawn([c, other])
    ensures Sum(CampaignBills.Costs([c, other], Spent)) == 20.0
  {
    SpentByTwo([c, other]);
    CostOfTwo([c, other]);
  }

  /** Then a second call is reserved and billed for the whole cap: the record is within the cap, and twice
      as much has been billed. */
  lemma StaleLockBillsTwice() returns (evs: seq<Event>)
    ensures Happens([], evs) && CapsUnder(evs, Spent, 10.0) && Uninterrupted(evs)
    ensures Within(Final([], evs), Spent, 10.0) && !Overdrawn(Final([], evs))
    ensures Sum(CampaignBills.Costs(Final([], evs), Spent)) == 20.0
  {
    var a, l;
    evs, a, l := BilledAndForgotten();
    var other, bill, p := Locked(l), Bill(10.0, Flat, 0, 0), Pending(10.0, "task", Generation);
    AdmittedByTwo([a, other], 0, p);
    var b, n := ReservedNext(a, p);
    evs := Then(evs, [a, other], Reserved(0, p), [b, other]);
    var c := BilledNext(b, n, bill);
    evs := Then(evs, [b, other], Settled(0, n, bill), [c, other]);
    TwiceBilled(c, other);
  }

  lemma CostOfTwo(s: State)
    requires |s| == 2
    ensures Sum(CampaignBills.Costs(s, Spent)) == PhaseSum(s[0].due) + PhaseSum(s[1].due)
  {
    assert s == [] + [s[0]] + [s[1]];
    CampaignBills.CostAdds([], s[0], Spent);
    CampaignBills.CostAdds([] + [s[0]], s[1], Spent);
  }
}
