/** The budget operations of a run, as they update the process's copy of run.json in place and
    write it out under the campaign lock. */
module RunStore {
  import opened Outcomes
  import opened Sums
  import opened BudgetLedger

  /** The campaign directory: every run's run.json and the request evidence beside it. */
  class CampaignRoot {
    var disk: seq<Ledger>
    var requests: seq<set<nat>>

    constructor ()
      ensures disk == [] && requests == []
    {
      disk := [];
      requests := [];
    }

    /** Other processes save their own runs; this run's file and evidence stay. */
    method OthersMove(id: nat, others: seq<Ledger>)
      requires id < |disk| == |others|
      modifies this`disk
      ensures disk == others[id := old(disk)[id]]
    {
      disk := others[id := disk[id]];
    }

    method CampaignCost() returns (total: real)
      ensures total == Sum(Readings(disk, Spent))
    {
      total := 0.0;
      for i := 0 to |disk|
        invariant total == Sum(Readings(disk, Spent)[..i])
      {
        total := total + disk[i].budget.cost;
        assert Readings(disk, Spent)[..i + 1][..i] == Readings(disk, Spent)[..i];
      }
      assert Readings(disk, Spent)[..|disk|] == Readings(disk, Spent);
    }

    method PhaseCost(phase: Phase) returns (total: real)
      ensures total == Sum(Readings(disk, SpentIn(phase)))
    {
      total := 0.0;
      for i := 0 to |disk|
        invariant total == Sum(Readings(disk, SpentIn(phase))[..i])
      {
        total := total + disk[i].phases[phase];
        assert Readings(disk, SpentIn(phase))[..i + 1][..i] == Readings(disk, SpentIn(phase))[..i];
      }
      assert Readings(disk, SpentIn(phase))[..|disk|] == Readings(disk, SpentIn(phase));
    }
  }

  class RunStore {
    const root: CampaignRoot
    const id: nat
    const caps: Caps
    var run: Ledger

    ghost predicate Valid()
      reads this, root
    {
      id < |root.disk| == |root.requests|
    }

    /** Reads run.json; taking the run's lock comes later. */
    constructor (root: CampaignRoot, id: nat, caps: Caps)
      requires id < |root.disk| == |root.requests|
      ensures Valid() && this.root == root && this.id == id && this.caps == caps
      ensures run == root.disk[id]
    {
      this.root := root;
      this.id := id;
      this.caps := caps;
      this.run := root.disk[id];
    }

    method Save()
      requires Valid()
      modifies root
      ensures Valid() && root.disk == old(root.disk)[id := run] && root.requests == old(root.requests)
    {
      root.disk := root.disk[id := run];
    }

    /** Skips the numbers whose request evidence survived an interrupted reservation. */
    method NextSequence() returns (n: nat)
      requires Valid()
      ensures n == NextNumber(run.callCounter, root.requests[id])
    {
      n := run.callCounter + 1;
      ghost var later := root.requests[id];
      while n in root.requests[id]
        invariant run.callCounter < n
        invariant forall k | run.callCounter < k < n :: k in root.requests[id]
        invariant forall k | k in root.requests[id] && n <= k :: k in later
        decreases |later|
      {
        later := later - {n};
        n := n + 1;
      }
    }

    /** Every check before a reservation, in the order the source makes them. */
    method Refuse(amount: real, phase: Phase, expired: bool) returns (refusal: Option<Refusal>)
      requires Valid()
      ensures var disk, mem := root.disk, run;
        refusal == None <==>
        && amount >= 0.0 && !expired
        && mem.overflow <= 0.0 && (forall i | 0 <= i < |disk| :: disk[i].overflow <= 0.0)
        && mem.budget.cost < caps.run && mem.budget.cost + amount <= caps.run
        && Sum(Readings(disk, Spent)) + amount <= caps.campaign
        && (phase == Capability ==> Sum(Readings(disk, SpentIn(Capability))) + amount <= caps.capability)
        && (phase == PublicTools ==> Sum(Readings(disk, SpentIn(PublicTools))) + amount <= caps.publicTools)
      ensures refusal.Some? ==> FirstGrounds(root.disk, run, caps, expired, amount, phase, refusal.value)
      ensures refusal == Admit(root.disk, run, caps, expired, amount, phase)
    {
      AdmittedIff(root.disk, run, caps, expired, amount, phase);
      if Admit(root.disk, run, caps, expired, amount, phase).Some? {
        RefusalIsFirstGrounds(root.disk, run, caps, expired, amount, phase);
      }
      if amount < 0.0 {
        return Some(InvalidReservation);
      }
      var spent := CheckBudget(run, caps, expired);
      if spent.Some? {
        return spent;
      }
      var total := root.CampaignCost();
      if exists i :: 0 <= i < |root.disk| && root.disk[i].overflow > 0.0 {
        return Some(CampaignLiability);
      }
      var phaseTotal := root.PhaseCost(phase);
      if phase != Generation && phaseTotal + amount > CapOn(caps, SpentIn(phase)).value {
        return Some(PhaseCapReached);
      }
      if total + amount > caps.campaign {
        return Some(CampaignCapReached);
      }
      if run.budget.cost + amount > caps.run {
        return Some(RunCannotReserve);
      }
      return None;
    }

    /** Reserves the amount and issues a call number, or refuses and changes nothing. */
    method ReserveCall(taskId: string, amount: real, phase: Phase, expired: bool) returns (r: Result<nat, Refusal>)
      requires Valid()
      modifies this`run, root
      ensures Valid()
      ensures var disk, mem := old(root.disk), old(run);
        r.Ok? <==>
        && amount >= 0.0 && !expired
        && mem.overflow <= 0.0 && (forall i | 0 <= i < |disk| :: disk[i].overflow <= 0.0)
        && mem.budget.cost < caps.run && mem.budget.cost + amount <= caps.run
        && Sum(Readings(disk, Spent)) + amount <= caps.campaign
        && (phase == Capability ==> Sum(Readings(disk, SpentIn(Capability))) + amount <= caps.capability)
        && (phase == PublicTools ==> Sum(Readings(disk, SpentIn(PublicTools))) + amount <= caps.publicTools)
      ensures r.Err? ==> Some(r.error) == old(Admit(root.disk, run, caps, expired, amount, phase))
      ensures r.Ok? ==> old(Admit(root.disk, run, caps, expired, amount, phase)) == None
      ensures r.Err? ==> run == old(run) && root.disk == old(root.disk) && root.requests == old(root.requests)
      ensures r.Ok? ==>
        && old(run.callCounter) < r.value && r.value !in old(root.requests[id])
        && forall k | old(run.callCounter) < k < r.value :: k in old(root.requests[id])
      ensures r.Ok? ==>
        && run.callCounter == r.value && run.pending == old(run.pending)[r.value := Pending(amount, taskId, phase)]
        && run.budget.cost == old(run.budget.cost) + amount && run.budget.calls == old(run.budget.calls) + 1
        && run.budget == old(run.budget).(cost := run.budget.cost, calls := run.budget.calls)
        && run.phases == old(run.phases)[phase := old(run.phases[phase]) + amount]
        && run.overflow == old(run.overflow)
      ensures r.Ok? ==>
        && r.value == old(NextNumber(run.callCounter, root.requests[id]))
        && run == Reserve(old(run), r.value, Pending(amount, taskId, phase))
        && root.disk == old(root.disk)[id := run]
        && root.requests == old(root.requests)[id := old(root.requests[id]) + {r.value}]
    {
      var refusal := Refuse(amount, phase, expired);
      r := Proceed(refusal, taskId, amount, phase);
    }

    /** Goes on with a reservation that was not refused. */
    method Proceed(refusal: Option<Refusal>, taskId: string, amount: real, phase: Phase) returns (r: Result<nat, Refusal>)
      requires Valid() && (refusal.None? ==> amount >= 0.0)
      modifies this`run, root
      ensures Valid() && (r.Ok? <==> refusal.None?)
      ensures r.Err? ==> Some(r.error) == refusal
      ensures r.Err? ==> run == old(run) && root.disk == old(root.disk) && root.requests == old(root.requests)
      ensures r.Ok? ==>
        && old(run.callCounter) < r.value && r.value !in old(root.requests[id])
        && forall k | old(run.callCounter) < k < r.value :: k in old(root.requests[id])
      ensures r.Ok? ==>
        && run.callCounter == r.value && run.pending == old(run.pending)[r.value := Pending(amount, taskId, phase)]
        && run.budget.cost == old(run.budget.cost) + amount && run.budget.calls == old(run.budget.calls) + 1
        && run.budget == old(run.budget).(cost := run.budget.cost, calls := run.budget.calls)
        && run.phases == old(run.phases)[phase := old(run.phases[phase]) + amount]
        && run.overflow == old(run.overflow)
      ensures r.Ok? ==>
        && r.value == old(NextNumber(run.callCounter, root.requests[id]))
        && run == Reserve(old(run), r.value, Pending(amount, taskId, phase))
        && root.disk == old(root.disk)[id := run]
        && root.requests == old(root.requests)[id := old(root.requests[id]) + {r.value}]
    {
      if refusal.Some? {
        return Err(refusal.value);
      }
      var sequence := NextSequence();
      Record(sequence, Pending(amount, taskId, phase));
      return Ok(sequence);
    }

    /** The updates of an admitted reservation, its save and its request evidence. */
    method Record(sequence: nat, p: Pending)
      requires Valid()
      modifies this`run, root
      ensures Valid() && run == Reserve(old(run), sequence, p)
      ensures root.disk == old(root.disk)[id := run]
      ensures root.requests == old(root.requests)[id := old(root.requests[id]) + {sequence}]
    {
      run := run.(callCounter := sequence);
      run := run.(budget := run.budget.(calls := run.budget.calls + 1));
      run := run.(budget := run.budget.(cost := run.budget.cost + p.reserved));
      run := run.(phases := run.phases[p.phase := run.phases[p.phase] + p.reserved]);
      run := run.(pending := run.pending[sequence := p]);
      Save();
      root.requests := root.requests[id := root.requests[id] + {sequence}];
    }

    /** Replaces a pending reservation by what the call cost. */
    method SettleCall(sequence: nat, bill: Bill)
      requires Valid() && sequence in run.pending
      modifies this`run, root
      ensures Valid() && run == Settle(old(run), sequence, bill)
      ensures var was := old(run.pending[sequence]);
        var delta := bill.cost - was.reserved;
        && run.pending == old(run.pending) - {sequence} && run.callCounter == old(run.callCounter)
        && run.budget.cost == old(run.budget.cost) + delta && run.budget.calls == old(run.budget.calls)
        && run.phases == old(run.phases)[was.phase := old(run.phases)[was.phase] + delta]
        && run.overflow == old(run.overflow) + (if delta > 0.0 then delta else 0.0)
        && run.budget.settled == old(run.budget.settled)[bill.bucket := old(run.budget.settled)[bill.bucket] + bill.cost]
        && run.budget.tokensIn == old(run.budget.tokensIn) + bill.tokensIn
        && run.budget.tokensOut == old(run.budget.tokensOut) + bill.tokensOut
      ensures root.disk == old(root.disk)[id := run] && root.requests == old(root.requests)
    {
      var pending := run.pending[sequence];
      run := run.(pending := run.pending - {sequence});
      Charge(pending, bill);
      FileBill(bill);
      Save();
    }

    /** The cost, its phase and the overflow take the difference between bill and reservation. */
    method Charge(pending: Pending, bill: Bill)
      modifies this`run
      ensures var delta := bill.cost - pending.reserved;
        run == old(run).(
          budget := old(run).budget.(cost := old(run).budget.cost + delta),
          phases := old(run).phases[pending.phase := old(run).phases[pending.phase] + delta],
          overflow := old(run).overflow + Positive(delta))
    {
      run := run.(budget := run.budget.(cost := run.budget.cost + (bill.cost - pending.reserved)));
      run := run.(phases := run.phases[pending.phase := run.phases[pending.phase] + (bill.cost - pending.reserved)]);
      run := run.(overflow := run.overflow + Positive(bill.cost - pending.reserved));
    }

    /** The settled amount and the tokens are filed. */
    method FileBill(bill: Bill)
      modifies this`run
      ensures var budget := old(run).budget;
        run == old(run).(budget := budget.(
          settled := budget.settled[bill.bucket := budget.settled[bill.bucket] + bill.cost],
          tokensIn := budget.tokensIn + bill.tokensIn,
          tokensOut := budget.tokensOut + bill.tokensOut))
    {
      var settled := run.budget.settled;
      run := run.(budget := run.budget.(settled := settled[bill.bucket := settled[bill.bucket] + bill.cost]));
      run := run.(budget := run.budget.(tokensIn := run.budget.tokensIn + bill.tokensIn));
      run := run.(budget := run.budget.(tokensOut := run.budget.tokensOut + bill.tokensOut));
    }

    /** A failed call keeps its reservation. */
    method FailCall(sequence: nat)
      requires Valid()
      modifies root
      ensures Valid() && root.disk == old(root.disk)[id := run] && root.requests == old(root.requests)
    {
      Save();
    }
  }
}
