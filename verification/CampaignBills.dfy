/** What a campaign's calls truly cost, beside what its run.json files record: how far the two come apart,
    and exactly which locks let the true cost exceed a cap. */
module CampaignBills {
  import opened Outcomes
  import opened Sums
  import opened BudgetLedger
  import opened Campaign
  import opened CampaignCaps

  /** What the run's calls cost: the bills of those answered, the reservations of the others. */
  function Cost(run: Run, m: Meter): real {
    match m
    case Spent => PhaseSum(run.due)
    case SpentIn(phase) => run.due[phase]
  }

  function Costs(s: State, m: Meter): seq<real> {
    seq(|s|, i requires 0 <= i < |s| => Cost(s[i], m))
  }

  /** What is sure to stay on record of it: the lock holder's next save replaces run.json. */
  function Shown(run: Run, m: Meter): real {
    var disk := Reading(run.disk, m);
    if run.holder.Some? && Reading(run.holder.value.mem, m) < disk then Reading(run.holder.value.mem, m) else disk
  }

  function Unshown(run: Run, m: Meter): real { Cost(run, m) - Shown(run, m) }

  function Unshowns(s: State, m: Meter): seq<real> {
    seq(|s|, i requires 0 <= i < |s| => Unshown(s[i], m))
  }

  /** What a lock or an interruption makes its run's record forget. */
  function Conceals(run: Run, e: Event, m: Meter): real
    requires CanDo(run, e)
  {
    if Untested(e) then Positive(Unshown(After(run, e), m) - Unshown(run, m)) else 0.0
  }

  ghost function Forgotten(s: State, evs: seq<Event>, m: Meter): (f: real)
    requires Happens(s, evs)
    ensures f >= 0.0
    decreases |evs|
  {
    if evs == [] then 0.0
    else (if evs[0].Create? then 0.0 else Conceals(s[evs[0].r], evs[0], m)) + Forgotten(Apply(s, evs[0]), evs[1..], m)
  }

  lemma DueOn(due: PhaseCosts, phase: Phase, amount: real)
    ensures PhaseSum(Due(due, phase, amount)) == PhaseSum(due) + amount
    ensures forall p: Phase :: Due(due, phase, amount)[p] == due[p] + if p == phase then amount else 0.0
  {
    PhaseSumAdd(due, phase, amount);
  }

  /** No event hides more of a run's cost than it conceals. */
  lemma UnshownFalls(run: Run, e: Event, m: Meter)
    requires CanDo(run, e)
    ensures Unshown(After(run, e), m) <= Unshown(run, m) + Conceals(run, e, m)
  {
    match e
    case Reserved(_, p) => DueOn(run.due, p.phase, p.reserved);
    case Settled(_, n, bill) =>
      var p := run.holder.value.mem.pending[n];
      DueOn(run.due, p.phase, bill.cost - p.reserved);
    case _ =>
  }

  lemma UnshownMoves(s: State, r: nat, run: Run, m: Meter)
    requires r < |s|
    ensures Sum(Unshowns(s[r := run], m)) == Sum(Unshowns(s, m)) - Unshown(s[r], m) + Unshown(run, m)
  {
    SumUpdate(Unshowns(s, m), r, Unshown(run, m));
    assert Unshowns(s[r := run], m) == Unshowns(s, m)[r := Unshown(run, m)];
  }

  lemma NothingHidden(s: State, caps: Caps, m: Meter)
    ensures Sum(Unshowns(s + [NewRun(caps)], m)) == Sum(Unshowns(s, m))
  {
    assert Unshowns(s + [NewRun(caps)], m) == Unshowns(s, m) + [0.0];
  }

  lemma StepHides(s: State, e: Event, m: Meter)
    requires Enabled(s, e)
    ensures Sum(Unshowns(Apply(s, e), m)) <= Sum(Unshowns(s, m)) + if e.Create? then 0.0 else Conceals(s[e.r], e, m)
  {
    if e.Create? {
      NothingHidden(s, e.caps, m);
    } else {
      UnshownFalls(s[e.r], e, m);
      UnshownMoves(s, e.r, After(s[e.r], e), m);
    }
  }

  lemma {:induction false} HiddenIsForgotten(s: State, evs: seq<Event>, m: Meter)
    requires Happens(s, evs)
    ensures Sum(Unshowns(Final(s, evs), m)) <= Sum(Unshowns(s, m)) + Forgotten(s, evs, m)
    decreases |evs|
  {
    if evs != [] {
      StepHides(s, evs[0], m);
      HiddenIsForgotten(Apply(s, evs[0]), evs[1..], m);
    }
  }

  /** What is not hidden is on record. */
  lemma CostsSplit(s: State, m: Meter)
    ensures Sum(Costs(s, m)) <= Sum(Readings(Disks(s), m)) + Sum(Unshowns(s, m))
  {
    var bound := seq(|s|, i requires 0 <= i < |s| => Reading(s[i].disk, m) + Unshown(s[i], m));
    SumMonotone(Costs(s, m), bound);
    SumAdd(Readings(Disks(s), m), Unshowns(s, m), bound);
  }

  /** However any number of runs interleave, what their calls truly cost on a capped meter is at most the
      limit, plus the recorded overflow, plus what untested events added to the record, plus what locks
      and interruptions made it forget. */
  lemma BilledCapSafe(evs: seq<Event>, m: Meter, limit: real)
    requires Happens([], evs) && CapsUnder(evs, m, limit) && 0.0 <= limit
    ensures var s := Final([], evs);
      Sum(Costs(s, m)) <= limit + Sum(Overflows(Disks(s))) + Sum(Charged([], [], evs, m)) + Forgotten([], evs, m)
  {
    CampaignCapSafe(evs, m, limit);
    HiddenIsForgotten([], evs, m);
    CostsSplit(Final([], evs), m);
  }

  predicate BilledWithin(s: State, m: Meter, limit: real) {
    Sum(Costs(s, m)) <= limit + Sum(Overflows(Disks(s)))
  }

  // ------------------------------------------------------- locks on the file as it is

  lemma {:induction false} FreshForgetNothing(s: State, evs: seq<Event>, m: Meter)
    requires Happens(s, evs) && Fresh(s, evs) && Uninterrupted(evs)
    ensures Forgotten(s, evs, m) == 0.0
    decreases |evs|
  {
    if evs != [] { FreshForgetNothing(Apply(s, evs[0]), evs[1..], m); }
  }

  /** With every lock taken on the file as it is and every update whole, the record hides nothing, and
      the true cost stays within the limit plus the recorded overflow. */
  lemma FreshBilledWithin(evs: seq<Event>, m: Meter, limit: real)
    requires Happens([], evs) && Fresh([], evs) && Uninterrupted(evs) && CapsUnder(evs, m, limit) && 0.0 <= limit
    ensures Sum(Costs(Final([], evs), m)) <= Sum(Readings(Disks(Final([], evs)), m))
    ensures BilledWithin(Final([], evs), m, limit)
  {
    FreshForgetNothing([], evs, m);
    HiddenIsForgotten([], evs, m);
    CostsSplit(Final([], evs), m);
    FreshIsCareful([], evs, m);
    CarefulCapSafe(evs, m, limit);
  }

  /** A run whose processes all worked from the file as it was: the holder's copy is the file, and no
      older copy knows of more overflow. */
  predicate Current(run: Run) {
    && 0.0 <= run.disk.overflow
    && (run.holder.Some? ==> run.holder.value.mem == run.disk)
    && (forall l | l in run.copies :: 0.0 <= l.overflow <= run.disk.overflow)
  }

  predicate AllCurrent(s: State) { forall r {:trigger Current(s[r])} | 0 <= r < |s| :: Current(s[r]) }

  lemma CurrentKept(run: Run, e: Event)
    requires Current(run) && CanDo(run, e) && !Interruption(e) && (e.Acquire? ==> e.copy == run.disk)
    ensures Current(After(run, e))
  {
  }

  lemma {:induction false} CurrentAlways(s: State, evs: seq<Event>)
    requires AllCurrent(s) && Happens(s, evs) && Fresh(s, evs) && Uninterrupted(evs)
    ensures AllCurrent(Final(s, evs))
    decreases |evs|
  {
    if evs != [] {
      var e, s' := evs[0], Apply(s, evs[0]);
      if !e.Create? { CurrentKept(s[e.r], e); }
      forall i | 0 <= i < |s'| ensures Current(s'[i]) {
        if i < |s| { assert Current(s[i]); }
      }
      CurrentAlways(s', evs[1..]);
    }
  }

  // ------------------------------------------------------- after one lock on an older copy

  /** Holders know all overflow on file, and the runs' caps are under the limit. */
  predicate Knowing(run: Run, m: Meter, limit: real) {
    && 0.0 <= run.disk.overflow
    && (run.holder.Some? ==> run.disk.overflow <= run.holder.value.mem.overflow)
    && CapOn(run.caps, m).Some? && CapOn(run.caps, m).value <= limit
  }

  predicate AllKnowing(s: State, m: Meter, limit: real) {
    forall r {:trigger Knowing(s[r], m, limit)} | 0 <= r < |s| :: Knowing(s[r], m, limit)
  }

  /** Nothing is hidden on balance, and what the calls cost is within the cap. */
  ghost predicate Honest(s: State, m: Meter, limit: real) {
    AllKnowing(s, m, limit) && Sum(Unshowns(s, m)) <= 0.0 && BilledWithin(s, m, limit)
  }

  predicate Following(e: Event, s: State, m: Meter, limit: real)
    requires Enabled(s, e)
  {
    && !Interruption(e) && (e.Acquire? ==> e.copy == s[e.r].disk)
    && (e.Create? ==> CapOn(e.caps, m).Some? && CapOn(e.caps, m).value <= limit)
  }

  lemma KnowingKept(run: Run, e: Event, m: Meter, limit: real)
    requires Knowing(run, m, limit) && CanDo(run, e) && !Interruption(e) && (e.Acquire? ==> e.copy == run.disk)
    ensures Knowing(After(run, e), m, limit)
  {
  }

  lemma AllKnowingKept(s: State, e: Event, m: Meter, limit: real)
    requires AllKnowing(s, m, limit) && Enabled(s, e) && Following(e, s, m, limit)
    ensures AllKnowing(Apply(s, e), m, limit)
  {
    var s' := Apply(s, e);
    if !e.Create? {
      assert Knowing(s[e.r], m, limit);
      KnowingKept(s[e.r], e, m, limit);
    }
    forall i | 0 <= i < |s'| ensures Knowing(s'[i], m, limit) {
      if i < |s| { assert Knowing(s[i], m, limit); }
    }
  }

  lemma CostMoves(s: State, r: nat, run: Run, m: Meter)
    requires r < |s|
    ensures Sum(Costs(s[r := run], m)) == Sum(Costs(s, m)) - Cost(s[r], m) + Cost(run, m)
  {
    SumUpdate(Costs(s, m), r, Cost(run, m));
    assert Costs(s[r := run], m) == Costs(s, m)[r := Cost(run, m)];
  }

  lemma CostAdds(s: State, run: Run, m: Meter)
    ensures Sum(Costs(s + [run], m)) == Sum(Costs(s, m)) + Cost(run, m)
  {
    assert Costs(s + [run], m) == Costs(s, m) + [Cost(run, m)];
  }

  /** A call's cost grows past its reservation only as far as the overflow it leaves on record. */
  lemma CostCovered(run: Run, e: Event, m: Meter, limit: real)
    requires Knowing(run, m, limit) && CanDo(run, e) && !Interruption(e) && !e.Reserved?
    requires e.Acquire? ==> e.copy == run.disk
    ensures Cost(After(run, e), m) - After(run, e).disk.overflow <= Cost(run, m) - run.disk.overflow
  {
    if e.Settled? {
      var p := run.holder.value.mem.pending[e.n];
      DueOn(run.due, p.phase, e.bill.cost - p.reserved);
    }
  }

  lemma AdmittedCost(s: State, e: Event, m: Meter, limit: real)
    requires Honest(s, m, limit) && Enabled(s, e) && e.Reserved?
    ensures BilledWithin(Apply(s, e), m, limit)
  {
    AdmissionPaysFor(s, e, m);
    assert Knowing(s[e.r], m, limit);
    NoOverflow(s, e, m, limit);
    CostsSplit(s, m);
    AdmittedRun(s[e.r], e, m);
    CostMoves(s, e.r, After(s[e.r], e), m);
    ReadingsMove(s, e.r, After(s[e.r], e), m);
  }

  lemma AdmittedRun(run: Run, e: Event, m: Meter)
    requires CanDo(run, e) && e.Reserved?
    ensures Cost(After(run, e), m) == Cost(run, m) + if m == Spent || m == SpentIn(e.p.phase) then e.p.reserved else 0.0
  {
    DueOn(run.due, e.p.phase, e.p.reserved);
  }

  /** Where a reservation is admitted no overflow is on record. */
  lemma NoOverflow(s: State, e: Event, m: Meter, limit: real)
    requires AllKnowing(s, m, limit) && Enabled(s, e) && e.Reserved?
    ensures Sum(Overflows(Disks(s))) == 0.0
    ensures s[e.r].disk.overflow == 0.0 <= After(s[e.r], e).disk.overflow
  {
    forall i | 0 <= i < |s| ensures Overflows(Disks(s))[i] == 0.0 {
      assert Knowing(s[i], m, limit);
      assert Disks(s)[i].overflow <= 0.0;
    }
    SumZero(Overflows(Disks(s)));
    assert Knowing(s[e.r], m, limit);
    assert Overflows(Disks(s))[e.r] == 0.0;
  }

  lemma BilledKept(s: State, e: Event, m: Meter, limit: real)
    requires Honest(s, m, limit) && Enabled(s, e) && Following(e, s, m, limit)
    ensures BilledWithin(Apply(s, e), m, limit)
  {
    if e.Create? {
      CostAdds(s, NewRun(e.caps), m);
      ReadingsGrow(s, NewRun(e.caps), m);
    } else if e.Reserved? {
      AdmittedCost(s, e, m, limit);
    } else {
      assert Knowing(s[e.r], m, limit);
      CostCovered(s[e.r], e, m, limit);
      CostMoves(s, e.r, After(s[e.r], e), m);
      ReadingsMove(s, e.r, After(s[e.r], e), m);
    }
  }

  lemma HonestKept(s: State, e: Event, m: Meter, limit: real)
    requires Honest(s, m, limit) && Enabled(s, e) && Following(e, s, m, limit)
    ensures Honest(Apply(s, e), m, limit)
  {
    AllKnowingKept(s, e, m, limit);
    BilledKept(s, e, m, limit);
    StepHides(s, e, m);
    if e.Acquire? { FreshLockHides(s[e.r], e, m); }
  }

  lemma FreshLockHides(run: Run, e: Event, m: Meter)
    requires CanDo(run, e) && e.Acquire? && e.copy == run.disk
    ensures Conceals(run, e, m) == 0.0
  {
  }

  /** A later history whose locks are all taken on the file as it is and whose updates are whole. */
  ghost predicate Follows(s: State, evs: seq<Event>, m: Meter, limit: real) {
    Happens(s, evs) && Fresh(s, evs) && Uninterrupted(evs) && CapsUnder(evs, m, limit)
  }

  lemma {:induction false} HonestAlways(s: State, evs: seq<Event>, m: Meter, limit: real)
    requires Honest(s, m, limit) && Follows(s, evs, m, limit)
    ensures Honest(Final(s, evs), m, limit)
    decreases |evs|
  {
    if evs != [] {
      HonestKept(s, evs[0], m, limit);
      HonestAlways(Apply(s, evs[0]), evs[1..], m, limit);
    }
  }

  // ------------------------------------------------------- which locks forget

  /** What the record would show once the copy is saved falls short of what the calls have cost. */
  ghost predicate Forgets(s: State, r: nat, copy: Ledger, m: Meter)
    requires r < |s|
  {
    Sum(Costs(s, m)) > Sum(Readings(Disks(s), m)) - Reading(s[r].disk, m) + Reading(copy, m)
  }

  lemma RunsKnowing(evs: seq<Event>, m: Meter, limit: real)
    requires Follows([], evs, m, limit) && 0.0 <= limit
    ensures AllCurrent(Final([], evs)) && AllKnowing(Final([], evs), m, limit)
  {
    CurrentAlways([], evs);
    CapKeptFrom([], [], evs, m, limit);
    var s, strays := Final([], evs), Charged([], [], evs, m);
    forall i | 0 <= i < |s| ensures Knowing(s[i], m, limit) {
      assert Current(s[i]) && RunOk(s[i], strays[i], m, limit);
    }
  }

  lemma LockedHonest(s: State, r: nat, copy: Ledger, m: Meter, limit: real)
    requires AllCurrent(s) && AllKnowing(s, m, limit) && !Overdrawn(s) && Enabled(s, Acquire(r, copy))
    requires Sum(Costs(s, m)) <= Sum(Readings(Disks(s), m)) && BilledWithin(s, m, limit)
    requires !Forgets(s, r, copy, m)
    ensures Honest(Apply(s, Acquire(r, copy)), m, limit)
  {
    var e, s' := Acquire(r, copy), Apply(s, Acquire(r, copy));
    forall i | 0 <= i < |s'| ensures Knowing(s'[i], m, limit) {
      assert Knowing(s[i], m, limit) && Current(s[i]);
    }
    CostMoves(s, r, After(s[r], e), m);
    ReadingsMove(s, r, After(s[r], e), m);
    UnshownMoves(s, r, After(s[r], e), m);
    CurrentShows(s, m);
  }

  /** While every holder's copy is the file, all that is not on record is hidden. */
  lemma CurrentShows(s: State, m: Meter)
    requires AllCurrent(s)
    ensures Sum(Unshowns(s, m)) == Sum(Costs(s, m)) - Sum(Readings(Disks(s), m))
  {
    forall i | 0 <= i < |s| ensures Costs(s, m)[i] == Readings(Disks(s), m)[i] + Unshowns(s, m)[i] {
      assert Current(s[i]);
    }
    SumAdd(Readings(Disks(s), m), Unshowns(s, m), Costs(s, m));
  }

  function LockedAndSaved(s: State, r: nat, copy: Ledger): State
    requires Enabled(s, Acquire(r, copy))
  {
    s[r := s[r].(disk := copy, holder := Some(Holder(copy, false, None)))]
  }

  lemma SavedOver(s: State, r: nat, copy: Ledger)
    requires Enabled(s, Acquire(r, copy)) && copy.overflow == 0.0 && !Overdrawn(s)
    ensures var s1, s2 := Apply(s, Acquire(r, copy)), LockedAndSaved(s, r, copy);
      Enabled(s1, Saved(r)) && Apply(s1, Saved(r)) == s2 && !Overdrawn(s2)
  {
    var s2 := LockedAndSaved(s, r, copy);
    forall i | 0 <= i < |s2| ensures s2[i].disk.overflow <= 0.0 {
      if i != r { assert s2[i] == s[i]; }
    }
  }

  lemma SavedSums(s: State, r: nat, copy: Ledger, m: Meter)
    requires Enabled(s, Acquire(r, copy)) && copy.overflow == 0.0 && s[r].disk.overflow == 0.0
    ensures var s2 := LockedAndSaved(s, r, copy);
      && Sum(Overflows(Disks(s2))) == Sum(Overflows(Disks(s))) && Sum(Costs(s2, m)) == Sum(Costs(s, m))
      && Sum(Readings(Disks(s2), m)) == Sum(Readings(Disks(s), m)) - Reading(s[r].disk, m) + Reading(copy, m)
  {
    var after := s[r].(disk := copy, holder := Some(Holder(copy, false, None)));
    CostMoves(s, r, after, m);
    ReadingsMove(s, r, after, m);
  }

  lemma HoldingCosts(caps: Caps, n: nat, p: Pending, m: Meter)
    ensures Cost(Holding(caps, n, p), m) == Reading(Holding(caps, n, p).disk, m)
    ensures Holding(caps, n, p).disk.overflow == 0.0
  {
    DueOn(NO_PHASE_COSTS, p.phase, p.reserved);
  }

  lemma OneRunUnder(caps: Caps, r: nat, n: nat, p: Pending, m: Meter, limit: real)
    requires CapOn(caps, m) == Some(limit)
    ensures CapsUnder([Saved(r)] + ([Create(caps), Open(n), Acquire(n, EMPTY_LEDGER), Reserved(n, p)] + []), m, limit)
  {
  }

  /** The holder saves its copy, a new run takes the room the record leaves, and pays for a call. */
  lemma RoomBilled(s: State, r: nat, copy: Ledger, m: Meter, limit: real) returns (evs: seq<Event>)
    requires IsCapped(m) && 0.0 < limit && Enabled(s, Acquire(r, copy)) && copy.overflow == 0.0 && !Overdrawn(s)
    requires Sum(Overflows(Disks(s))) == 0.0 && s[r].disk.overflow == 0.0
    requires Forgets(s, r, copy, m) && Sum(Readings(Disks(s), m)) - Reading(s[r].disk, m) + Reading(copy, m) <= limit
    ensures var s' := Apply(s, Acquire(r, copy));
      Follows(s', evs, m, limit) && !BilledWithin(Final(s', evs), m, limit)
  {
    var s1, s2 := Apply(s, Acquire(r, copy)), LockedAndSaved(s, r, copy);
    SavedOver(s, r, copy);
    SavedSums(s, r, copy, m);
    var full, caps, p := RoomTaken(s2, m, limit);
    evs := ReservedFirst(s2, caps, p, []);
    evs := Before(s1, Saved(r), evs);
    OneRunUnder(caps, r, |s2|, p, m, limit);
    HoldingCosts(caps, |s2|, p, m);
    CostAdds(s2, Holding(caps, |s2|, p), m);
    ReadingsGrow(s2, Holding(caps, |s2|, p), m);
    assert Final(s1, evs) == full;
  }

  /** Exactly the locks that make the record forget let the true cost exceed a cap: after any history of
      fresh locks and whole updates without recorded overflow, a lock on any copy leaves every such
      continuation's true cost within the limit plus the recorded overflow exactly when the record, with
      the copy in place of its file, would still show what the calls have cost. */
  lemma LockBilledWithinIff(before: seq<Event>, r: nat, copy: Ledger, m: Meter, limit: real)
    requires Follows([], before, m, limit) && IsCapped(m) && 0.0 < limit && !Overdrawn(Final([], before))
    requires Enabled(Final([], before), Acquire(r, copy))
    ensures var s' := Apply(Final([], before), Acquire(r, copy));
      (forall after | Follows(s', after, m, limit) :: BilledWithin(Final(s', after), m, limit))
        <==> !Forgets(Final([], before), r, copy, m)
  {
    var s := Final([], before);
    var s' := Apply(s, Acquire(r, copy));
    RunsKnowing(before, m, limit);
    FreshBilledWithin(before, m, limit);
    if Forgets(s, r, copy, m) {
      FreshIsCareful([], before, m);
      CarefulState(before, m, limit);
      assert Current(s[r]);
      var after := RoomBilled(s, r, copy, m, limit);
      assert Follows(s', after, m, limit);
    } else {
      LockedHonest(s, r, copy, m, limit);
      forall after | Follows(s', after, m, limit) ensures BilledWithin(Final(s', after), m, limit) {
        HonestAlways(s', after, m, limit);
      }
    }
  }
}
