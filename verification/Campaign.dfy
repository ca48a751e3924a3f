/** Any number of runs sharing one campaign directory, each driven by at most one lock holder at a
    time. Every event is one indivisible action of one process on run.json, the call evidence or
    the process's own copy of run.json; a process may die between any two of them. */
module Campaign {
  import opened Outcomes
  import opened Sequences
  import opened Sums
  import opened BudgetLedger

  /** A process holding a run's lock, with its call that may still be answered. Once an exception has
      interrupted a ledger update it only saves and leaves. */
  datatype Holder = Holder(mem: Ledger, ending: bool, call: Option<nat>)

  /** One run directory. `copies` holds the copies read by processes that have not taken the lock
      yet. The rest is history: `issued` the numbers handed to callers, and `due` what the calls made
      with them cost, phase by phase: the bill of an answered call, the reservation of any other. */
  datatype Run = Run(
    disk: Ledger,
    caps: Caps,
    requests: set<nat>,
    copies: set<Ledger>,
    holder: Option<Holder>,
    issued: seq<nat>,
    due: PhaseCosts)

  type State = seq<Run>

  datatype Event =
    | Create(caps: Caps)
    | Open(r: nat)
    | Acquire(r: nat, copy: Ledger)
    | Reserved(r: nat, p: Pending)
    | ReservedWithoutEvidence(r: nat, p: Pending)
    | ReserveInterrupted(r: nat, p: Pending, k: nat)
    | Settled(r: nat, n: nat, bill: Bill)
    | SettleInterrupted(r: nat, n: nat, bill: Bill, k: nat)
    | Saved(r: nat)
    | Left(r: nat)

  function Disks(s: State): seq<Ledger> {
    seq(|s|, i requires 0 <= i < |s| => s[i].disk)
  }

  predicate Working(run: Run) {
    run.holder.Some? && !run.holder.value.ending
  }

  predicate Admitted(s: State, r: nat, p: Pending)
    requires r < |s| && Working(s[r])
  {
    Admit(Disks(s), s[r].holder.value.mem, s[r].caps, false, p.reserved, p.phase) == None
  }

  predicate Admission(e: Event) { e.Reserved? || e.ReservedWithoutEvidence? || e.ReserveInterrupted? }

  /** The process's last call has not been settled. */
  predicate Answerable(h: Holder, n: nat) { h.call == Some(n) && n in h.mem.pending }

  function Due(due: PhaseCosts, phase: Phase, amount: real): PhaseCosts { due[phase := due[phase] + amount] }

  /** What an event needs of the one run directory it touches. */
  predicate CanDo(run: Run, e: Event) {
    match e
    case Create(_) => false
    case Open(_) => true
    case Acquire(_, copy) => run.holder.None? && copy in run.copies
    case Reserved(_, p) => Working(run)
    case ReservedWithoutEvidence(_, p) => Working(run)
    case ReserveInterrupted(_, p, k) => Working(run) && k <= 5
    case Settled(_, n, bill) => Working(run) && Answerable(run.holder.value, n)
    case SettleInterrupted(_, n, bill, k) => Working(run) && Answerable(run.holder.value, n) && k <= 7
    case Saved(_) => run.holder.Some?
    case Left(_) => run.holder.Some?
  }

  predicate Enabled(s: State, e: Event) {
    if e.Create? then e.caps.run > 0.0 && e.caps.campaign > 0.0 && e.caps.capability > 0.0 && e.caps.publicTools > 0.0
    else e.r < |s| && CanDo(s[e.r], e) && (Admission(e) ==> Admitted(s, e.r, e.p))
  }

  /** The event's effect on that directory. */
  function After(run: Run, e: Event): Run
    requires CanDo(run, e)
  {
    match e
    case Open(_) => run.(copies := run.copies + {run.disk})
    case Acquire(_, copy) => run.(holder := Some(Holder(copy, false, None)))
    case Reserved(_, p) =>
      var n := NextNumber(run.holder.value.mem.callCounter, run.requests);
      var mem := Reserve(run.holder.value.mem, n, p);
      run.(disk := mem, holder := Some(Holder(mem, false, Some(n))), requests := run.requests + {n}, issued := run.issued + [n],
           due := Due(run.due, p.phase, p.reserved))
    case ReservedWithoutEvidence(_, p) =>
      var mem := Reserve(run.holder.value.mem, NextNumber(run.holder.value.mem.callCounter, run.requests), p);
      run.(disk := mem, holder := Some(Holder(mem, true, None)))
    case ReserveInterrupted(_, p, k) =>
      var n := NextNumber(run.holder.value.mem.callCounter, run.requests);
      run.(holder := Some(Holder(ReserveUpdates(run.holder.value.mem, k, n, p), true, None)))
    case Settled(_, n, bill) =>
      var mem, p := Settle(run.holder.value.mem, n, bill), run.holder.value.mem.pending[n];
      run.(disk := mem, holder := Some(Holder(mem, false, None)), due := Due(run.due, p.phase, bill.cost - p.reserved))
    case SettleInterrupted(_, n, bill, k) =>
      var p := run.holder.value.mem.pending[n];
      run.(holder := Some(Holder(SettleUpdates(run.holder.value.mem, k, n, bill), true, None)),
           due := Due(run.due, p.phase, bill.cost - p.reserved))
    case Saved(_) => run.(disk := run.holder.value.mem)
    case Left(_) => run.(holder := None)
  }

  /** What each event leaves of the directory it touches, field by field: which copies are read, whose ledger is on disk, which
      numbers have evidence and are handed out, and what the calls come to cost. */
  lemma Effects(run: Run, e: Event)
    requires CanDo(run, e)
    ensures var run', h := After(run, e), run.holder;
      && run'.caps == run.caps
      && run'.copies == run.copies + (if e.Open? then {run.disk} else {})
      && run'.requests == run.requests + (if e.Reserved? then {NextNumber(h.value.mem.callCounter, run.requests)} else {})
      && run'.issued == run.issued + (if e.Reserved? then [NextNumber(h.value.mem.callCounter, run.requests)] else [])
      && run'.disk == (
           if e.Reserved? || e.ReservedWithoutEvidence? then Reserve(h.value.mem, NextNumber(h.value.mem.callCounter, run.requests), e.p)
           else if e.Settled? then Settle(h.value.mem, e.n, e.bill)
           else if e.Saved? then h.value.mem
           else run.disk)
      && (e.Reserved? || e.ReservedWithoutEvidence? || e.Settled? ==> run'.holder.Some? && run'.holder.value.mem == run'.disk)
      && run'.due == (
           if e.Reserved? then run.due[e.p.phase := run.due[e.p.phase] + e.p.reserved]
           else if e.Settled? || e.SettleInterrupted? then
             var p := h.value.mem.pending[e.n];
             run.due[p.phase := run.due[p.phase] + (e.bill.cost - p.reserved)]
           else run.due)
  {
  }

  /** And who works on it: a process that took the lock on a copy works from that copy; one that was interrupted only saves
      what it has and leaves; only the call just reserved may still be answered. */
  lemma HolderEffects(run: Run, e: Event)
    requires CanDo(run, e)
    ensures var h, h' := run.holder, After(run, e).holder;
      && (h' == None <==> e.Left? || (e.Open? && h == None))
      && (h'.Some? ==>
            && (e.Acquire? ==> h'.value.mem == e.copy)
            && (e.ReserveInterrupted? ==>
                  h'.value.mem == ReserveUpdates(h.value.mem, e.k, NextNumber(h.value.mem.callCounter, run.requests), e.p))
            && (e.SettleInterrupted? ==> h'.value.mem == SettleUpdates(h.value.mem, e.k, e.n, e.bill))
            && (e.Saved? || e.Open? ==> h'.value.mem == h.value.mem)
            && (h'.value.ending <==>
                  e.ReservedWithoutEvidence? || e.ReserveInterrupted? || e.SettleInterrupted? || (!e.Acquire? && h.value.ending))
            && h'.value.call == (
                 if e.Reserved? then Some(NextNumber(h.value.mem.callCounter, run.requests))
                 else if e.Saved? || e.Open? then h.value.call else None))
  {
  }

  function NewRun(caps: Caps): Run {
    Run(EMPTY_LEDGER, caps, {}, {}, None, [], NO_PHASE_COSTS)
  }

  function Apply(s: State, e: Event): State
    requires Enabled(s, e)
  {
    if e.Create? then s + [NewRun(e.caps)]
    else s[e.r := After(s[e.r], e)]
  }

  /** The events can happen in this order from this state. */
  ghost predicate Happens(s: State, evs: seq<Event>)
    decreases |evs|
  {
    evs == [] || (Enabled(s, evs[0]) && Happens(Apply(s, evs[0]), evs[1..]))
  }

  ghost function Final(s: State, evs: seq<Event>): State
    requires Happens(s, evs)
    decreases |evs|
  {
    if evs == [] then s else Final(Apply(s, evs[0]), evs[1..])
  }

  // ------------------------------------------------------- call numbers are unique

  predicate NumbersFit(run: Run) {
    Unique(run.issued) && forall n | n in run.issued :: n in run.requests
  }

  predicate NumbersOk(s: State) {
    forall r {:trigger NumbersFit(s[r])} | 0 <= r < |s| :: NumbersFit(s[r])
  }

  lemma NumbersStep(s: State, e: Event)
    requires NumbersOk(s) && Enabled(s, e)
    ensures NumbersOk(Apply(s, e))
  {
    var s' := Apply(s, e);
    forall r | 0 <= r < |s'| ensures NumbersFit(s'[r]) {
      if r < |s| { assert NumbersFit(s[r]); }
    }
  }

  lemma {:induction false} NumbersKept(s: State, evs: seq<Event>)
    requires NumbersOk(s) && Happens(s, evs)
    ensures NumbersOk(Final(s, evs))
    decreases |evs|
  {
    if evs != [] {
      NumbersStep(s, evs[0]);
      NumbersKept(Apply(s, evs[0]), evs[1..]);
    }
  }

  /** No number is handed out twice in a run, whatever the processes do: stale copies, deaths
      between the save and the request evidence, and interrupted updates included. */
  lemma CallNumbersNeverReused(evs: seq<Event>)
    requires Happens([], evs)
    ensures forall r | 0 <= r < |Final([], evs)| :: Unique(Final([], evs)[r].issued)
  {
    NumbersKept([], evs);
    forall r | 0 <= r < |Final([], evs)| ensures Unique(Final([], evs)[r].issued) {
      assert NumbersFit(Final([], evs)[r]);
    }
  }

  // ----------------------------------------------------------- money is conserved

  predicate Interruption(e: Event) { e.ReserveInterrupted? || e.SettleInterrupted? }

  predicate Uninterrupted(evs: seq<Event>) {
    forall i | 0 <= i < |evs| :: !Interruption(evs[i])
  }

  /** What a ledger promises: that spending is settled plus pending and the phases split it, or that it
      stays within the run's cap plus the recorded overflow. */
  datatype Promise = Balance | RunCap

  ghost predicate Kept(l: Ledger, caps: Caps, promise: Promise) {
    match promise
    case Balance => Balanced(l)
    case RunCap => l.overflow >= 0.0 && WithinRunCap(l, caps)
  }

  /** Where an interrupted update may be cut. Balance asks that no money is split in two: what a
      reservation adds to the cost is pending too, and what a settlement takes from what is pending is
      settled. The cap asks that a bill beyond it is not cut before the overflow is recorded. */
  predicate MayCut(run: Run, e: Event, promise: Promise)
    requires CanDo(run, e)
  {
    match e
    case ReserveInterrupted(_, p, k) => promise == RunCap || k <= 2 || k == 5 || p.reserved == 0.0
    case SettleInterrupted(_, n, bill, k) =>
      var mem := run.holder.value.mem;
      var reserved := mem.pending[n].reserved;
      if promise == RunCap then
        !(2 <= k <= 3 && mem.budget.cost + bill.cost - reserved > run.caps.run + mem.overflow)
      else
        || k == 0
        || (k == 1 && reserved == 0.0)
        || (k == 2 && reserved == 0.0 && bill.cost == 0.0)
        || (3 <= k <= 4 && bill.cost == 0.0)
        || k >= 5
    case _ => true
  }

  ghost predicate RunKeeps(run: Run, promise: Promise) {
    && Kept(run.disk, run.caps, promise)
    && (forall l | l in run.copies :: Kept(l, run.caps, promise))
    && (run.holder.Some? ==> Kept(run.holder.value.mem, run.caps, promise))
  }

  lemma CutReserveKeepsIff(disk: seq<Ledger>, run: Run, e: Event, promise: Promise)
    requires RunKeeps(run, promise) && CanDo(run, e) && e.ReserveInterrupted?
    requires Admit(disk, run.holder.value.mem, run.caps, false, e.p.reserved, e.p.phase) == None
    ensures RunKeeps(After(run, e), promise) <==> MayCut(run, e, promise)
  {
    var mem := run.holder.value.mem;
    if promise == Balance {
      InterruptedReserveBalancesIff(mem, e.k, NextNumber(mem.callCounter, run.requests), e.p);
    }
  }

  lemma CutSettleKeepsIff(run: Run, e: Event, promise: Promise)
    requires RunKeeps(run, promise) && CanDo(run, e) && e.SettleInterrupted?
    ensures RunKeeps(After(run, e), promise) <==> MayCut(run, e, promise)
  {
    var mem := run.holder.value.mem;
    if promise == Balance {
      InterruptedSettleBalancesIff(mem, e.k, e.n, e.bill);
    } else {
      InterruptedSettleWithinCapIff(mem, run.caps, e.k, e.n, e.bill);
    }
  }

  lemma WholeUpdateKeeps(disk: seq<Ledger>, run: Run, e: Event, promise: Promise)
    requires RunKeeps(run, promise) && CanDo(run, e) && !Interruption(e)
    requires Admission(e) ==> Admit(disk, run.holder.value.mem, run.caps, false, e.p.reserved, e.p.phase) == None
    ensures RunKeeps(After(run, e), promise)
  {
    if Admission(e) {
      var mem := run.holder.value.mem;
      if promise == Balance { ReserveKeepsLedger(disk, mem, run.caps, false, NextNumber(mem.callCounter, run.requests), e.p); }
    } else if e.Settled? {
      if promise == Balance { SettleBalances(run.holder.value.mem, e.n, e.bill); }
    }
  }

  /** One event keeps a promise of every ledger of its run exactly when it is no interruption, or one at a
      harmless point. */
  lemma RunKeepsIff(disk: seq<Ledger>, run: Run, e: Event, promise: Promise)
    requires RunKeeps(run, promise) && CanDo(run, e)
    requires Admission(e) ==> Admit(disk, run.holder.value.mem, run.caps, false, e.p.reserved, e.p.phase) == None
    ensures RunKeeps(After(run, e), promise) <==> MayCut(run, e, promise)
  {
    if e.ReserveInterrupted? {
      CutReserveKeepsIff(disk, run, e, promise);
    } else if e.SettleInterrupted? {
      CutSettleKeepsIff(run, e, promise);
    } else {
      WholeUpdateKeeps(disk, run, e, promise);
    }
  }

  ghost predicate AllKeep(s: State, promise: Promise) {
    forall r {:trigger RunKeeps(s[r], promise)} | 0 <= r < |s| :: RunKeeps(s[r], promise)
  }

  predicate Harmless(s: State, e: Event, promise: Promise)
    requires Enabled(s, e)
  {
    e.Create? || MayCut(s[e.r], e, promise)
  }

  lemma StepKeepsIff(s: State, e: Event, promise: Promise)
    requires AllKeep(s, promise) && Enabled(s, e)
    ensures AllKeep(Apply(s, e), promise) <==> Harmless(s, e, promise)
  {
    if e.Create? {
      assert RunKeeps(NewRun(e.caps), promise);
      KeepAppend(s, NewRun(e.caps), promise);
    } else {
      assert RunKeeps(s[e.r], promise);
      RunKeepsIff(Disks(s), s[e.r], e, promise);
      KeepUpdateIff(s, e.r, After(s[e.r], e), promise);
    }
  }

  lemma KeepUpdateIff(s: State, r: nat, run: Run, promise: Promise)
    requires AllKeep(s, promise) && r < |s|
    ensures AllKeep(s[r := run], promise) <==> RunKeeps(run, promise)
  {
    var s' := s[r := run];
    if RunKeeps(run, promise) {
      forall i | 0 <= i < |s'| ensures RunKeeps(s'[i], promise) {
        if i != r { assert RunKeeps(s[i], promise); }
      }
    } else {
      assert !RunKeeps(s'[r], promise);
    }
  }

  lemma KeepAppend(s: State, run: Run, promise: Promise)
    requires AllKeep(s, promise) && RunKeeps(run, promise)
    ensures AllKeep(s + [run], promise)
  {
    forall i | 0 <= i < |s + [run]| ensures RunKeeps((s + [run])[i], promise) {
      if i < |s| { assert RunKeeps(s[i], promise); }
    }
  }

  /** Every interruption of the history comes where the promise allows one. */
  ghost predicate AllHarmless(s: State, evs: seq<Event>, promise: Promise)
    requires Happens(s, evs)
    decreases |evs|
  {
    evs != [] ==> Harmless(s, evs[0], promise) && AllHarmless(Apply(s, evs[0]), evs[1..], promise)
  }

  ghost predicate KeptThroughout(s: State, evs: seq<Event>, promise: Promise)
    requires Happens(s, evs)
    decreases |evs|
  {
    AllKeep(s, promise) && (evs != [] ==> KeptThroughout(Apply(s, evs[0]), evs[1..], promise))
  }

  lemma {:induction false} KeptFromIff(s: State, evs: seq<Event>, promise: Promise)
    requires AllKeep(s, promise) && Happens(s, evs)
    ensures KeptThroughout(s, evs, promise) <==> AllHarmless(s, evs, promise)
    ensures KeptThroughout(s, evs, promise) ==> AllKeep(Final(s, evs), promise)
    decreases |evs|
  {
    if evs != [] {
      StepKeepsIff(s, evs[0], promise);
      if Harmless(s, evs[0], promise) { KeptFromIff(Apply(s, evs[0]), evs[1..], promise); }
    }
  }

  /** In every history, every run.json and every process's copy is balanced from the first event to the
      last exactly when every interrupted update is cut where balance allows it; and is within its run's
      cap plus its recorded overflow exactly when every one is cut where the cap allows it. */
  lemma LedgersConserved(evs: seq<Event>, promise: Promise)
    requires Happens([], evs)
    ensures KeptThroughout([], evs, promise) <==> AllHarmless([], evs, promise)
    ensures AllHarmless([], evs, promise) ==>
      forall r | 0 <= r < |Final([], evs)| :: Kept(Final([], evs)[r].disk, Final([], evs)[r].caps, promise)
  {
    KeptFromIff([], evs, promise);
    if AllHarmless([], evs, promise) {
      forall r | 0 <= r < |Final([], evs)|
        ensures Kept(Final([], evs)[r].disk, Final([], evs)[r].caps, promise)
      {
        assert RunKeeps(Final([], evs)[r], promise);
      }
    }
  }

  // ------------------------------------------------------- histories one after another

  /** A history cut anywhere: what happens after the cut happens from the state it reached. */
  lemma {:induction false} HappensApart(s: State, before: seq<Event>, after: seq<Event>)
    ensures Happens(s, before + after) <==> Happens(s, before) && Happens(Final(s, before), after)
    ensures Happens(s, before + after) ==> Final(s, before + after) == Final(Final(s, before), after)
    decreases |before|
  {
    if before == [] {
      assert before + after == after;
    } else {
      assert (before + after)[1..] == before[1..] + after;
      if Enabled(s, before[0]) { HappensApart(Apply(s, before[0]), before[1..], after); }
    }
  }

  lemma HappensThen(s: State, evs: seq<Event>, e: Event)
    requires Happens(s, evs) && Enabled(Final(s, evs), e)
    ensures Happens(s, evs + [e]) && Final(s, evs + [e]) == Apply(Final(s, evs), e)
  {
    HappensApart(s, evs, [e]);
    assert [e][1..] == [];
  }
}
