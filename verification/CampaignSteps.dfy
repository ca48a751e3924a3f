/** The operations of a process on its run are events of the campaign's state machine, so what every history
    keeps, every process keeps. */
module CampaignSteps {
  import opened Outcomes
  import opened BudgetLedger
  import opened RunStore
  import opened Campaign
  import opened CampaignCaps
  import opened Sums

  function Evidence(s: State): seq<set<nat>> { seq(|s|, i requires 0 <= i < |s| => s[i].requests) }

  /** A state of the campaign shows the directory as it is, and the store as the process at work on its run, `call` being
      the number of its call that may still be answered. */
  ghost predicate Shows(s: State, store: RunStore, call: Option<nat>)
    reads store, store.root
  {
    && store.Valid() && Disks(s) == store.root.disk && Evidence(s) == store.root.requests
    && store.id < |s| && s[store.id].caps == store.caps && s[store.id].holder == Some(Holder(store.run, false, call))
  }

  /** A process reads run.json and takes the lock on it. */
  method Lock(root: CampaignRoot, id: nat, caps: Caps, ghost s: State) returns (store: RunStore, ghost s': State)
    requires id < |s| && s[id].holder == None && s[id].caps == caps && Disks(s) == root.disk && Evidence(s) == root.requests
    ensures store.root == root && store.id == id
    ensures Enabled(s, Open(id)) && Enabled(Apply(s, Open(id)), Acquire(id, root.disk[id]))
    ensures s' == Apply(Apply(s, Open(id)), Acquire(id, root.disk[id])) && Shows(s', store, None)
  {
    store := new RunStore(root, id, caps);
    assert Disks(s)[id] == s[id].disk;
    s' := Apply(Apply(s, Open(id)), Acquire(id, root.disk[id]));
    OneChanged(s, id, s'[id]);
    assert s' == s[id := s'[id]] && root.disk[id := s'[id].disk] == root.disk && root.requests[id := s'[id].requests] == root.requests;
  }

  lemma OneChanged(s: State, id: nat, run: Run)
    requires id < |s|
    ensures Disks(s[id := run]) == Disks(s)[id := run.disk] && Evidence(s[id := run]) == Evidence(s)[id := run.requests]
    ensures Disks(s)[id] == s[id].disk && Evidence(s)[id] == s[id].requests
  {
  }

  /** What a granted reservation leaves is the state after the event. */
  lemma ReservedShown(s: State, id: nat, mem: Ledger, call: Option<nat>, p: Pending)
    requires id < |s| && s[id].holder == Some(Holder(mem, false, call))
    requires Admit(Disks(s), mem, s[id].caps, false, p.reserved, p.phase) == None
    ensures Enabled(s, Reserved(id, p))
    ensures var n, s' := NextNumber(mem.callCounter, s[id].requests), Apply(s, Reserved(id, p));
      && |s'| == |s| && Disks(s') == Disks(s)[id := Reserve(mem, n, p)] && Evidence(s') == Evidence(s)[id := s[id].requests + {n}]
      && s'[id].holder == Some(Holder(Reserve(mem, n, p), false, Some(n))) && s'[id].caps == s[id].caps
  {
    OneChanged(s, id, Apply(s, Reserved(id, p))[id]);
  }

  lemma AdmittedInTime(disk: seq<Ledger>, mem: Ledger, caps: Caps, expired: bool, amount: real, phase: Phase)
    requires Admit(disk, mem, caps, expired, amount, phase) == None || !expired
    ensures Admit(disk, mem, caps, false, amount, phase) == Admit(disk, mem, caps, expired, amount, phase)
  {
  }

  /** A reservation that is granted is one the state machine allows, and does to the campaign what it says; one that
      is refused in time changes nothing, and the state machine does not allow it either. */
  method ReserveCall(store: RunStore, taskId: string, amount: Amount, phase: Phase, expired: bool, ghost s: State, ghost call: Option<nat>)
    returns (r: Result<nat, Refusal>, ghost s': State)
    requires Shows(s, store, call)
    modifies store`run, store.root
    ensures r.Ok? ==>
      var e := Reserved(store.id, Pending(amount, taskId, phase));
      Enabled(s, e) && s' == Apply(s, e) && Shows(s', store, Some(r.value))
    ensures r.Err? ==> s' == s && Shows(s, store, call)
    ensures r.Err? && !expired ==> !Enabled(s, Reserved(store.id, Pending(amount, taskId, phase)))
  {
    s' := s;
    ghost var mem, disk := store.run, store.root.disk;
    OneChanged(s, store.id, s[store.id]);
    r := store.ReserveCall(taskId, amount, phase, expired);
    if r.Ok? || !expired { AdmittedInTime(disk, mem, store.caps, expired, amount, phase); }
    if r.Ok? {
      ReservedShown(s, store.id, mem, call, Pending(amount, taskId, phase));
      s' := Apply(s, Reserved(store.id, Pending(amount, taskId, phase)));
    }
  }

  /** A settlement is the event that settles the call, which is then answered. */
  method SettleCall(store: RunStore, n: nat, bill: Bill, ghost s: State) returns (ghost s': State)
    requires Shows(s, store, Some(n)) && n in store.run.pending
    modifies store`run, store.root
    ensures Enabled(s, Settled(store.id, n, bill)) && s' == Apply(s, Settled(store.id, n, bill)) && Shows(s', store, None)
  {
    store.SettleCall(n, bill);
    s' := Apply(s, Settled(store.id, n, bill));
    OneChanged(s, store.id, s'[store.id]);
    assert store.root.requests[store.id := s[store.id].requests] == store.root.requests;
  }

  /** A failed call is a save. */
  method FailCall(store: RunStore, n: nat, ghost s: State, ghost call: Option<nat>) returns (ghost s': State)
    requires Shows(s, store, call)
    modifies store.root
    ensures Enabled(s, Saved(store.id)) && s' == Apply(s, Saved(store.id)) && Shows(s', store, call)
  {
    store.FailCall(n);
    s' := Apply(s, Saved(store.id));
    OneChanged(s, store.id, s'[store.id]);
    assert store.root.requests[store.id := s[store.id].requests] == store.root.requests;
  }

  /** After any history of the campaign's processes, this process's next reservation, granted or refused, leaves on record
      in the run.json files at most the limit that every run's caps are under, plus the overflow on record, plus what
      old copies and interruptions of that history added. */
  method ReserveWithinCap(store: RunStore, taskId: string, amount: Amount, phase: Phase, expired: bool,
                          ghost evs: seq<Event>, ghost call: Option<nat>, ghost m: Meter, ghost limit: real)
    returns (r: Result<nat, Refusal>, ghost evs': seq<Event>)
    requires Happens([], evs) && Shows(Final([], evs), store, call) && CapsUnder(evs, m, limit) && 0.0 <= limit
    modifies store`run, store.root
    ensures evs' == evs + if r.Ok? then [Reserved(store.id, Pending(amount, taskId, phase))] else []
    ensures Happens([], evs') && Shows(Final([], evs'), store, if r.Ok? then Some(r.value) else call)
    ensures Sum(Readings(store.root.disk, m)) <= limit + Sum(Overflows(store.root.disk)) + Sum(Charged([], [], evs', m))
  {
    ghost var s, s' := Final([], evs), Final([], evs);
    r, s' := ReserveCall(store, taskId, amount, phase, expired, s, call);
    evs' := evs;
    if r.Ok? {
      HappensThen([], evs, Reserved(store.id, Pending(amount, taskId, phase)));
      evs' := evs + [Reserved(store.id, Pending(amount, taskId, phase))];
    } else {
      assert evs + [] == evs;
    }
    CampaignCapSafe(evs', m, limit);
  }
}
