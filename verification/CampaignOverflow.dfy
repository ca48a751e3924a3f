/** Recorded overflow stops a campaign for good, unless a run.json read before its lock erases the
    record; exactly which locks do, and exactly which events let a stopped campaign exceed a cap. */
module CampaignOverflow {
  import opened Outcomes
  import opened Sums
  import opened BudgetLedger
  import opened Campaign
  import opened CampaignCaps
  import opened CampaignBills

  /** No lock is taken on a copy without overflow while run.json records some. */
  ghost predicate KeepsOverflow(s: State, evs: seq<Event>)
    requires Happens(s, evs)
    decreases |evs|
  {
    evs != [] ==>
      && (evs[0].Acquire? && s[evs[0].r].disk.overflow > 0.0 ==> evs[0].copy.overflow > 0.0)
      && KeepsOverflow(Apply(s, evs[0]), evs[1..])
  }

  predicate NoAdmission(evs: seq<Event>) { forall i | 0 <= i < |evs| :: !Admission(evs[i]) }

  /** The lock holder knows of the overflow its run.json records. */
  predicate Remembers(run: Run) {
    run.disk.overflow > 0.0 && run.holder.Some? ==> run.holder.value.mem.overflow > 0.0
  }

  predicate Marked(run: Run) { run.disk.overflow > 0.0 && Remembers(run) }

  lemma OverdrawnBlocks(s: State, e: Event)
    requires Overdrawn(s) && Enabled(s, e)
    ensures !Admission(e)
  {
    var r :| 0 <= r < |s| && s[r].disk.overflow > 0.0;
    assert Disks(s)[r].overflow > 0.0;
  }

  lemma MarkKeptBy(s: State, e: Event, r: nat)
    requires r < |s| && Marked(s[r]) && Enabled(s, e)
    requires e.Acquire? && s[e.r].disk.overflow > 0.0 ==> e.copy.overflow > 0.0
    ensures r < |Apply(s, e)| && Marked(Apply(s, e)[r])
  {
  }

  /** One run that records overflow, with a holder that knows it, stops every run from then on. */
  lemma {:induction false} MarkedStops(s: State, r: nat, evs: seq<Event>)
    requires r < |s| && Marked(s[r]) && Happens(s, evs) && KeepsOverflow(s, evs)
    ensures NoAdmission(evs) && r < |Final(s, evs)| && Marked(Final(s, evs)[r])
    decreases |evs|
  {
    if evs != [] {
      OverdrawnBlocks(s, evs[0]);
      MarkKeptBy(s, evs[0], r);
      MarkedStops(Apply(s, evs[0]), r, evs[1..]);
      assert forall i | 1 <= i < |evs| :: evs[i] == evs[1..][i - 1];
    }
  }

  predicate AllRemember(s: State) {
    forall r {:trigger Remembers(s[r])} | 0 <= r < |s| :: Remembers(s[r])
  }

  lemma RememberedBy(s: State, e: Event)
    requires AllRemember(s) && Enabled(s, e)
    requires e.Acquire? && s[e.r].disk.overflow > 0.0 ==> e.copy.overflow > 0.0
    ensures AllRemember(Apply(s, e))
  {
    var s' := Apply(s, e);
    forall r | 0 <= r < |s'| ensures Remembers(s'[r]) {
      if r < |s| {
        assert Remembers(s[r]);
      }
    }
  }

  lemma {:induction false} RememberedAlways(s: State, evs: seq<Event>)
    requires AllRemember(s) && Happens(s, evs) && KeepsOverflow(s, evs)
    ensures AllRemember(Final(s, evs))
    decreases |evs|
  {
    if evs != [] {
      RememberedBy(s, evs[0]);
      RememberedAlways(Apply(s, evs[0]), evs[1..]);
    }
  }

  lemma {:induction false} KeepsApart(s: State, before: seq<Event>, after: seq<Event>)
    requires Happens(s, before + after) && KeepsOverflow(s, before + after)
    ensures Happens(s, before) && KeepsOverflow(s, before)
    ensures Happens(Final(s, before), after) && KeepsOverflow(Final(s, before), after)
    ensures Final(s, before + after) == Final(Final(s, before), after)
    decreases |before|
  {
    if before == [] {
      assert before + after == after;
    } else {
      assert (before + after)[1..] == before[1..] + after;
      KeepsApart(Apply(s, before[0]), before[1..], after);
    }
  }

  /** Once any run.json records overflow, no run admits another reservation in any history whose locks
      never forget recorded overflow: interleavings, deaths and interrupted updates notwithstanding. */
  lemma OverflowStopsCampaign(before: seq<Event>, after: seq<Event>)
    requires Happens([], before + after) && KeepsOverflow([], before + after)
    requires Happens([], before) && Overdrawn(Final([], before))
    ensures NoAdmission(after) && Overdrawn(Final([], before + after))
  {
    KeepsApart([], before, after);
    RememberedAlways([], before);
    var s := Final([], before);
    var r :| 0 <= r < |s| && s[r].disk.overflow > 0.0;
    assert Remembers(s[r]);
    MarkedStops(s, r, after);
  }

  // ------------------------------------------------------- which locks forget

  predicate OverdrawnBeside(s: State, r: nat) {
    exists q :: 0 <= q < |s| && q != r && s[q].disk.overflow > 0.0
  }

  /** Later histories that forget nothing more. */
  ghost predicate Remembering(s: State, evs: seq<Event>) { Happens(s, evs) && KeepsOverflow(s, evs) }

  /** A lock taken on any copy leaves an overdrawn campaign stopped for good exactly when the copy
      knows of some overflow or another run records some. */
  lemma LockKeepsStopIff(before: seq<Event>, r: nat, copy: Ledger)
    requires Happens([], before) && KeepsOverflow([], before) && Overdrawn(Final([], before))
    requires Enabled(Final([], before), Acquire(r, copy))
    ensures var s := Final([], before);
      (forall after | Remembering(Apply(s, Acquire(r, copy)), after) :: NoAdmission(after))
        <==> copy.overflow > 0.0 || OverdrawnBeside(s, r)
  {
    var s := Final([], before);
    var s' := Apply(s, Acquire(r, copy));
    RememberedAlways([], before);
    if copy.overflow > 0.0 || OverdrawnBeside(s, r) {
      var q := MarkedOne(s, r, copy);
      forall after | Remembering(s', after) ensures NoAdmission(after) { MarkedStops(s', q, after); }
    } else {
      var after := Reopened(s, r, copy);
      assert Remembering(s', after);
    }
  }

  lemma MarkedOne(s: State, r: nat, copy: Ledger) returns (q: nat)
    requires AllRemember(s) && Overdrawn(s) && Enabled(s, Acquire(r, copy))
    requires copy.overflow > 0.0 || OverdrawnBeside(s, r)
    ensures q < |s| && Marked(Apply(s, Acquire(r, copy))[q])
  {
    if OverdrawnBeside(s, r) {
      q :| 0 <= q < |s| && q != r && s[q].disk.overflow > 0.0;
    } else {
      q :| 0 <= q < |s| && s[q].disk.overflow > 0.0;
    }
    assert Remembers(s[q]);
  }

  lemma {:induction false} FreshKeepsOverflow(s: State, evs: seq<Event>)
    requires Happens(s, evs) && Fresh(s, evs)
    ensures KeepsOverflow(s, evs)
    decreases |evs|
  {
    if evs != [] { FreshKeepsOverflow(Apply(s, evs[0]), evs[1..]); }
  }

  /** The holder of a copy without overflow saves it, and a new run reserves. */
  lemma Reopened(s: State, r: nat, copy: Ledger) returns (evs: seq<Event>)
    requires Enabled(s, Acquire(r, copy)) && copy.overflow <= 0.0 && !OverdrawnBeside(s, r)
    ensures var s' := Apply(s, Acquire(r, copy));
      Happens(s', evs) && Fresh(s', evs) && KeepsOverflow(s', evs) && !NoAdmission(evs)
  {
    var s1 := Apply(s, Acquire(r, copy));
    var s2 := Apply(s1, Saved(r));
    FirstSaveKeepsOverflowIff(s, r, copy);
    var limit := Max(1.0, Sum(Readings(Disks(s2), Spent)));
    var caps, p := CapsFor(s2, Spent, limit, 0.0), PendingFor(Spent, 0.0);
    RoomAdmitted(s2, Spent, limit, 0.0);
    evs := ReservedFirst(s2, caps, p, []);
    evs := Before(s1, Saved(r), evs);
    assert evs[4] == Reserved(|s2|, p);
    FreshKeepsOverflow(s1, evs);
  }

  /** Recorded overflow outlives a lock and the holder's first save exactly when the copy has some
      too or another run records some. */
  lemma FirstSaveKeepsOverflowIff(s: State, r: nat, copy: Ledger)
    requires Enabled(s, Acquire(r, copy))
    ensures Overdrawn(Apply(Apply(s, Acquire(r, copy)), Saved(r))) <==> copy.overflow > 0.0 || OverdrawnBeside(s, r)
  {
    var s' := Apply(Apply(s, Acquire(r, copy)), Saved(r));
    assert s'[r].disk == copy && forall q | 0 <= q < |s| && q != r :: s'[q] == s[q];
  }

  // ------------------------------------------------------- the cap of a stopped campaign

  function Weights(s: State, m: Meter): seq<real> {
    seq(|s|, i requires 0 <= i < |s| => Weight(s[i], m))
  }

  /** What is known of a run: its holder's copy shows no more than its file and knows its overflow, unless
      it is the loose one. */
  predicate Watched(run: Run, loose: bool, m: Meter, limit: real) {
    && RunOk(run, Weight(run, m) - Exposure(run.disk, m), m, limit)
    && (loose || (Covered(run, m) && Remembers(run)))
  }

  /** What a campaign can still put on the meter is within the limit, with one run's holder loose. */
  predicate Awaiting(s: State, r: nat, m: Meter, limit: real) {
    && Sum(Weights(s, m)) <= limit
    && forall q | 0 <= q < |s| :: Watched(s[q], q == r, m, limit)
  }

  function Zeros(n: nat): seq<real> { seq(n, i => 0.0) }

  /** Every holder's copy shows what its file does, so that the cap is as safe as ever. */
  predicate Settled(s: State, m: Meter, limit: real) {
    CampaignOk(s, Zeros(|s|), m, limit) && AllCovered(s, m)
  }

  lemma WeightsMove(s: State, r: nat, run: Run, m: Meter)
    requires r < |s|
    ensures Sum(Weights(s[r := run], m)) == Sum(Weights(s, m)) - Weight(s[r], m) + Weight(run, m)
  {
    SumUpdate(Weights(s, m), r, Weight(run, m));
    assert Weights(s[r := run], m) == Weights(s, m)[r := Weight(run, m)];
  }

  lemma WeightsGrow(s: State, run: Run, m: Meter)
    ensures Sum(Weights(s + [run], m)) == Sum(Weights(s, m)) + Weight(run, m)
  {
    assert Weights(s + [run], m) == Weights(s, m) + [Weight(run, m)];
  }

  lemma NowSettled(s: State, r: nat, m: Meter, limit: real)
    requires Awaiting(s, r, m, limit) && (r < |s| ==> Covered(s[r], m))
    ensures Settled(s, m, limit)
  {
    forall q | 0 <= q < |s| ensures Covered(s[q], m) && RunOk(s[q], Zeros(|s|)[q], m, limit) {
      assert Watched(s[q], q == r, m, limit);
    }
    assert Loads(s, Zeros(|s|), m) == Weights(s, m);
  }

  /** An event of a later history: a fresh lock or a whole update. */
  lemma WatchedKept(run: Run, loose: bool, e: Event, m: Meter, limit: real)
    requires Watched(run, loose, m, limit) && CanDo(run, e) && !Admission(e) && !Interruption(e) && (e.Acquire? ==> e.copy == run.disk)
    ensures Watched(After(run, e), loose, m, limit) && Weight(After(run, e), m) <= Weight(run, m)
    ensures After(run, e).disk != run.disk ==> Covered(After(run, e), m)
    ensures !loose && run.disk.overflow > 0.0 ==> After(run, e).disk.overflow > 0.0
  {
    LoadFalls(run, Weight(run, m) - Exposure(run.disk, m), e, m, limit);
  }

  lemma AwaitingUpdate(s: State, r: nat, i: nat, run: Run, m: Meter, limit: real)
    requires Awaiting(s, r, m, limit) && i < |s| && Watched(run, i == r, m, limit) && Weight(run, m) <= Weight(s[i], m)
    ensures Awaiting(s[i := run], r, m, limit)
  {
    WeightsMove(s, i, run, m);
    var s' := s[i := run];
    forall q | 0 <= q < |s'| ensures Watched(s'[q], q == r, m, limit) {
      assert Watched(s[q], q == r, m, limit);
    }
  }

  lemma AwaitingMoves(s: State, r: nat, e: Event, m: Meter, limit: real)
    requires Awaiting(s, r, m, limit) && Enabled(s, e) && !e.Create? && !Admission(e) && Following(e, s, m, limit)
    ensures Awaiting(Apply(s, e), r, m, limit)
  {
    assert Watched(s[e.r], e.r == r, m, limit);
    WatchedKept(s[e.r], e.r == r, e, m, limit);
    AwaitingUpdate(s, r, e.r, After(s[e.r], e), m, limit);
  }

  lemma AwaitingGrows(s: State, r: nat, caps: Caps, m: Meter, limit: real)
    requires Awaiting(s, r, m, limit) && r < |s| && CapOn(caps, m).Some? && CapOn(caps, m).value <= limit
    ensures Awaiting(s + [NewRun(caps)], r, m, limit)
  {
    var run := NewRun(caps);
    WeightsGrow(s, run, m);
    forall q | 0 <= q < |s + [run]| ensures Watched((s + [run])[q], q == r, m, limit) {
      if q < |s| { assert Watched(s[q], q == r, m, limit); }
    }
  }

  lemma OverflowGone(s: State, i: nat, run: Run)
    requires i < |s| && Overdrawn(s) && !Overdrawn(s[i := run])
    ensures s[i].disk.overflow > 0.0 && run.disk.overflow <= 0.0
  {
    var q :| 0 <= q < |s| && s[q].disk.overflow > 0.0;
    assert s[i := run][q].disk.overflow <= 0.0;
    assert s[i := run][i] == run;
  }

  /** When the last overflow leaves the record, it was the loose run's holder that saved. */
  lemma OverflowLeaves(s: State, r: nat, e: Event, m: Meter, limit: real)
    requires Awaiting(s, r, m, limit) && r < |s| && Overdrawn(s) && Enabled(s, e) && !e.Create? && !Admission(e)
    requires Following(e, s, m, limit) && !Overdrawn(Apply(s, e))
    ensures e.r == r && Covered(After(s[r], e), m)
  {
    OverflowGone(s, e.r, After(s[e.r], e));
    assert Watched(s[e.r], e.r == r, m, limit);
    WatchedKept(s[e.r], e.r == r, e, m, limit);
  }

  ghost predicate Stopped(s: State, r: nat, m: Meter, limit: real) {
    r < |s| && ((Overdrawn(s) && Awaiting(s, r, m, limit)) || Settled(s, m, limit))
  }

  lemma SettledKept(s: State, e: Event, m: Meter, limit: real)
    requires Settled(s, m, limit) && Enabled(s, e) && Following(e, s, m, limit)
    ensures Settled(Apply(s, e), m, limit)
  {
    StepKeepsCap(s, Zeros(|s|), e, m, limit);
    CarefulStep(s, Zeros(|s|), e, m);
    assert Recharged(s, Zeros(|s|), e, m) == Zeros(|Apply(s, e)|);
  }

  lemma StoppedKept(s: State, r: nat, e: Event, m: Meter, limit: real)
    requires Stopped(s, r, m, limit) && Enabled(s, e) && Following(e, s, m, limit)
    ensures Stopped(Apply(s, e), r, m, limit)
  {
    if Settled(s, m, limit) {
      SettledKept(s, e, m, limit);
    } else {
      OverdrawnBlocks(s, e);
      if e.Create? {
        AwaitingGrows(s, r, e.caps, m, limit);
        OverdrawnGrows(s, NewRun(e.caps));
      } else {
        AwaitingMoves(s, r, e, m, limit);
        if !Overdrawn(Apply(s, e)) {
          OverflowLeaves(s, r, e, m, limit);
          NowSettled(Apply(s, e), r, m, limit);
        }
      }
    }
  }

  lemma OverdrawnGrows(s: State, run: Run)
    requires Overdrawn(s)
    ensures Overdrawn(s + [run])
  {
    var q :| 0 <= q < |s| && s[q].disk.overflow > 0.0;
    assert (s + [run])[q] == s[q];
  }

  lemma FollowsOn(s: State, evs: seq<Event>, m: Meter, limit: real)
    requires Follows(s, evs, m, limit) && evs != []
    ensures Enabled(s, evs[0]) && Following(evs[0], s, m, limit) && Follows(Apply(s, evs[0]), evs[1..], m, limit)
  {
  }

  lemma {:induction false} StoppedAlways(s: State, r: nat, evs: seq<Event>, m: Meter, limit: real)
    requires Stopped(s, r, m, limit) && Follows(s, evs, m, limit)
    ensures Within(Final(s, evs), m, limit)
    decreases |evs|
  {
    if evs == [] {
      StoppedWithin(s, r, m, limit);
    } else {
      FollowsOn(s, evs, m, limit);
      StoppedKept(s, r, evs[0], m, limit);
      StoppedAlways(Apply(s, evs[0]), r, evs[1..], m, limit);
    }
  }

  lemma StoppedWithin(s: State, r: nat, m: Meter, limit: real)
    requires Stopped(s, r, m, limit)
    ensures Within(s, m, limit)
  {
    if Settled(s, m, limit) {
      CampaignBound(s, Zeros(|s|), m, limit);
      SumZero(Zeros(|s|));
    } else {
      var excess := seq(|s|, i requires 0 <= i < |s| => Weight(s[i], m) + s[i].disk.overflow);
      SumMonotone(Readings(Disks(s), m), excess);
      SumAdd(Weights(s, m), Overflows(Disks(s)), excess);
    }
  }

  lemma {:induction false} WeightsAreExposures(s: State, m: Meter)
    requires AllCurrent(s)
    ensures Sum(Weights(s, m)) == Sum(Readings(Disks(s), m)) - Sum(Overflows(Disks(s)))
  {
    forall i | 0 <= i < |s| ensures Readings(Disks(s), m)[i] == Weights(s, m)[i] + Overflows(Disks(s))[i] {
      assert Current(s[i]);
    }
    SumAdd(Weights(s, m), Overflows(Disks(s)), Readings(Disks(s), m));
  }

  /** One run's holder gets a copy that may show more than its file. */
  lemma NowAwaiting(s: State, r: nat, run: Run, m: Meter, limit: real)
    requires AllCurrent(s) && AllKnowing(s, m, limit) && r < |s| && Watched(run, true, m, limit)
    requires Sum(Weights(s, m)) - Weight(s[r], m) + Weight(run, m) <= limit
    ensures Awaiting(s[r := run], r, m, limit)
  {
    WeightsMove(s, r, run, m);
    var s' := s[r := run];
    forall q | 0 <= q < |s'| ensures Watched(s'[q], q == r, m, limit) {
      if q != r { CurrentWatched(s, q, m, limit); }
    }
  }

  lemma CurrentWatched(s: State, q: nat, m: Meter, limit: real)
    requires AllCurrent(s) && AllKnowing(s, m, limit) && q < |s|
    ensures Watched(s[q], false, m, limit)
  {
    assert Current(s[q]) && Knowing(s[q], m, limit);
  }

  lemma CutLoose(run: Run, e: Event, m: Meter, limit: real)
    requires Current(run) && Knowing(run, m, limit) && CanDo(run, e) && Untested(e)
    ensures Watched(After(run, e), true, m, limit)
    ensures After(run, e).disk == run.disk && After(run, e).holder.Some?
    ensures Weight(After(run, e), m) == Weight(run, m) + Charge(run, e, m)
  {
    match e
    case ReserveInterrupted(_, p, k) =>
      ReserveUpdatesExpose(run.disk, k, NextNumber(run.disk.callCounter, run.requests), p, m);
    case SettleInterrupted(_, n, bill, k) =>
      SettleUpdatesExpose(run.disk, k, n, bill, m);
    case _ =>
  }

  lemma StillOverdrawn(s: State, r: nat, run: Run)
    requires Overdrawn(s) && r < |s| && run.disk == s[r].disk
    ensures Overdrawn(s[r := run])
  {
    var q :| 0 <= q < |s| && s[q].disk.overflow > 0.0;
    assert s[r := run][q].disk == s[q].disk;
  }

  lemma LooseSaved(s: State, r: nat, run: Run, m: Meter, limit: real)
    requires r < |s| && Current(s[r]) && Within(s, m, limit) && run.disk == s[r].disk && run.holder.Some?
    requires Sum(Readings(Disks(s), m)) - Sum(Overflows(Disks(s))) - Weight(s[r], m) + Weight(run, m) > limit
    ensures !Within(Apply(s[r := run], Saved(r)), m, limit)
  {
    var s' := s[r := run];
    var saved := After(run, Saved(r));
    ReadingsMove(s, r, run, m);
    ReadingsMove(s', r, saved, m);
    assert Apply(s', Saved(r)) == s'[r := saved];
  }

  /** Every later history of fresh locks and whole updates keeps the record within the cap. */
  ghost predicate FollowersWithin(s: State, m: Meter, limit: real) {
    forall after | Follows(s, after, m, limit) :: Within(Final(s, after), m, limit)
  }

  lemma LooseWithin(s: State, r: nat, run: Run, m: Meter, limit: real)
    requires AllCurrent(s) && AllKnowing(s, m, limit) && Overdrawn(s) && r < |s|
    requires Watched(run, true, m, limit) && run.disk == s[r].disk
    requires Sum(Weights(s, m)) - Weight(s[r], m) + Weight(run, m) <= limit
    ensures FollowersWithin(s[r := run], m, limit)
  {
    var s' := s[r := run];
    NowAwaiting(s, r, run, m, limit);
    StillOverdrawn(s, r, run);
    forall after | Follows(s', after, m, limit) ensures Within(Final(s', after), m, limit) {
      StoppedAlways(s', r, after, m, limit);
    }
  }

  lemma LooseBreaks(s: State, r: nat, run: Run, m: Meter, limit: real)
    requires r < |s| && Current(s[r]) && Within(s, m, limit) && run.disk == s[r].disk && run.holder.Some?
    requires Sum(Readings(Disks(s), m)) - Sum(Overflows(Disks(s))) - Weight(s[r], m) + Weight(run, m) > limit
    ensures !FollowersWithin(s[r := run], m, limit)
  {
    var s' := s[r := run];
    LooseSaved(s, r, run, m, limit);
    var after := SaveOnly(s', r);
    assert Follows(s', after, m, limit) && !Within(Final(s', after), m, limit);
  }

  lemma UntestedMoves(s: State, e: Event, m: Meter, limit: real)
    requires AllCurrent(s) && AllKnowing(s, m, limit) && Enabled(s, e) && Untested(e)
    ensures e.r < |s| && CanDo(s[e.r], e) && Apply(s, e) == s[e.r := After(s[e.r], e)]
    ensures Current(s[e.r]) && Watched(After(s[e.r], e), true, m, limit)
    ensures After(s[e.r], e).disk == s[e.r].disk && After(s[e.r], e).holder.Some?
    ensures Weight(After(s[e.r], e), m) == Weight(s[e.r], m) + Charge(s[e.r], e, m)
  {
    assert Current(s[e.r]) && Knowing(s[e.r], m, limit);
    CutLoose(s[e.r], e, m, limit);
  }

  /** What the files show, less the recorded overflow, and what the event adds to it. */
  function Stretched(s: State, e: Event, m: Meter): real
    requires Enabled(s, e) && !e.Create?
  {
    Sum(Readings(Disks(s), m)) - Sum(Overflows(Disks(s))) + Charge(s[e.r], e, m)
  }

  lemma CurrentStaysWithinIff(s: State, e: Event, m: Meter, limit: real)
    requires AllCurrent(s) && AllKnowing(s, m, limit) && Overdrawn(s) && Within(s, m, limit)
    requires Enabled(s, e) && Untested(e)
    ensures FollowersWithin(Apply(s, e), m, limit) <==> Stretched(s, e, m) <= limit
  {
    UntestedMoves(s, e, m, limit);
    var r, run := e.r, After(s[e.r], e);
    WeightsAreExposures(s, m);
    if Sum(Weights(s, m)) - Weight(s[r], m) + Weight(run, m) <= limit {
      LooseWithin(s, r, run, m, limit);
    } else {
      LooseBreaks(s, r, run, m, limit);
    }
  }

  /** Even a stopped campaign's record can be pushed over the cap, by a lock or an interruption whose copy
      shows more than its file: exactly when what the files show, less the recorded overflow, and what
      the event adds to it are beyond the limit together. */
  lemma StoppedStaysWithinIff(before: seq<Event>, e: Event, m: Meter, limit: real)
    requires Follows([], before, m, limit) && 0.0 < limit && Overdrawn(Final([], before))
    requires Enabled(Final([], before), e) && Untested(e)
    ensures var s := Final([], before);
      FollowersWithin(Apply(s, e), m, limit) <==> Stretched(s, e, m) <= limit
  {
    RunsKnowing(before, m, limit);
    FreshIsCareful([], before, m);
    CarefulCapSafe(before, m, limit);
    CurrentStaysWithinIff(Final([], before), e, m, limit);
  }
}
