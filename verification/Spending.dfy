/** How many sessions a run can still open, exactly: no history makes more decisions than they hold,
    and some history makes that many. */
module Spending {
  import opened Outcomes
  import opened Plan
  import opened Lifecycle

  // ------------------------------------------------------------------ whose turn it is

  /** The first place from i on whose task has not passed, or the number of places. */
  ghost function TurnFrom(spec: Spec, g: Generation, i: nat): (p: nat)
    requires Covers(spec, g) && i <= Places(spec, g)
    ensures i <= p <= Places(spec, g)
    ensures forall j | i <= j < p :: At(spec, g, j).status == Passed
    ensures p < Places(spec, g) ==> At(spec, g, p).status != Passed
    decreases Places(spec, g) - i
  {
    if i == Places(spec, g) || At(spec, g, i).status != Passed then i else TurnFrom(spec, g, i + 1)
  }

  ghost function Turn(spec: Spec, g: Generation): (p: nat)
    requires Covers(spec, g)
    ensures p <= Places(spec, g) && PassedBefore(spec, g, p)
    ensures p < Places(spec, g) ==> At(spec, g, p).status != Passed
  {
    TurnFrom(spec, g, 0)
  }

  lemma TurnIs(spec: Spec, g: Generation, p: nat)
    requires Covers(spec, g) && p <= Places(spec, g) && PassedBefore(spec, g, p)
    requires p < Places(spec, g) ==> At(spec, g, p).status != Passed
    ensures Turn(spec, g) == p
  {
  }

  /** The sessions opened so far are those of the places up to the turn. */
  predicate Orderly(spec: Spec, g: Generation)
    requires Covers(spec, g)
  {
    && (forall i | 0 <= i < Places(spec, g) && !PassedBefore(spec, g, i) :: At(spec, g, i).sessions == 0)
    && (g.repairs > 0 || g.delivering ==> PassedBefore(spec, g, Places(spec, g) - 1))
    && (g.granted ==> g.delivering)
    && (g.session.Some? ==> g.session.value.place < Places(spec, g) && At(spec, g, g.session.value.place).sessions > 0)
  }

  lemma PassedPrefix(spec: Spec, g: Generation, g': Generation, n: nat)
    requires Covers(spec, g) && Covers(spec, g') && n <= Places(spec, g) && n <= Places(spec, g')
    requires forall j | 0 <= j < n :: At(spec, g', j).status == Passed <==> At(spec, g, j).status == Passed
    ensures PassedBefore(spec, g', n) <==> PassedBefore(spec, g, n)
  {
  }

  lemma WriteOrderly(spec: Spec, limits: Limits, g: Generation, e: Step)
    requires Linted(spec) && Sound(spec, limits, g) && Orderly(spec, g) && Enabled(spec, limits, g, e)
    requires e.OpenSession? || e.LoseSession? || e.Decide? || e.AcceptTask? || e.Surrender?
    ensures Covers(spec, Apply(spec, limits, g, e)) && Orderly(spec, Apply(spec, limits, g, e))
  {
    var g' := Apply(spec, limits, g, e);
    var place := if e.OpenSession? || e.LoseSession? || e.Surrender? then e.place else g.session.value.place;
    Updated(spec, g, place, g'.tasks[TaskOf(spec, g, place)], g');
    forall i | 0 <= i < Places(spec, g') && !PassedBefore(spec, g', i) ensures At(spec, g', i).sessions == 0 {
      if i <= place { PassedPrefix(spec, g, g', i); }
    }
  }

  lemma ScheduleOrderly(spec: Spec, limits: Limits, g: Generation)
    requires Sound(spec, limits, g) && Orderly(spec, g) && Enabled(spec, limits, g, Schedule)
    ensures Covers(spec, Apply(spec, limits, g, Schedule)) && Orderly(spec, Apply(spec, limits, g, Schedule))
  {
    var g' := Apply(spec, limits, g, Schedule);
    var p, last := g.session.value.place, Places(spec, g) - 1;
    Scheduled(spec, g, g');
    assert !PassedBefore(spec, g, last) && !PassedBefore(spec, g', last);
    forall i | 0 <= i < Places(spec, g') && !PassedBefore(spec, g', i) ensures At(spec, g', i).sessions == 0 {
      if i < last { PassedPrefix(spec, g, g', i); }
    }
  }

  lemma OtherOrderly(spec: Spec, limits: Limits, g: Generation, e: Step)
    requires Linted(spec) && Sound(spec, limits, g) && Orderly(spec, g) && Enabled(spec, limits, g, e)
    requires !(e.OpenSession? || e.LoseSession? || e.Decide? || e.AcceptTask? || e.Surrender? || e.Schedule?)
    ensures Covers(spec, Apply(spec, limits, g, e)) && Orderly(spec, Apply(spec, limits, g, e))
  {
    var g' := Apply(spec, limits, g, e);
    Untouched(spec, g, g');
    forall i | 0 <= i <= Places(spec, g') ensures PassedBefore(spec, g', i) <==> PassedBefore(spec, g, i) {
      PassedPrefix(spec, g, g', i);
    }
  }

  lemma StepOrderly(spec: Spec, limits: Limits, g: Generation, e: Step)
    requires Linted(spec) && Sound(spec, limits, g) && Orderly(spec, g) && Enabled(spec, limits, g, e)
    ensures Sound(spec, limits, Apply(spec, limits, g, e)) && Orderly(spec, Apply(spec, limits, g, e))
  {
    StepSound(spec, limits, g, e);
    if e.OpenSession? || e.LoseSession? || e.Decide? || e.AcceptTask? || e.Surrender? {
      WriteOrderly(spec, limits, g, e);
    } else if e.Schedule? {
      ScheduleOrderly(spec, limits, g);
    } else {
      OtherOrderly(spec, limits, g, e);
    }
  }

  lemma NewOrderly(spec: Spec, limits: Limits)
    ensures Sound(spec, limits, NewGeneration(spec)) && Orderly(spec, NewGeneration(spec))
  {
    NewSound(spec, limits);
  }

  // ------------------------------------------------------------------ sessions still to come

  function Monus(a: nat, b: nat): nat { if a > b then a - b else 0 }

  /** Sessions of final integration, once every other task has passed. Without a pass its own sessions
      must bring one before repairs begin, in a process that starts; a repair takes the pass back, so
      what is left of its own sessions can be used after the first one. */
  function FinalLeft(limits: Limits, sessions: nat, repairs: nat, passed: bool, granted: bool, stuck: bool): nat
    requires repairs <= limits.repairs
  {
    var left := limits.repairs - repairs;
    if granted then 1 + Monus(limits.sessions, sessions + 1) + left
    else if passed then (if left == 0 then 0 else if sessions < limits.sessions then limits.sessions - sessions + left - 1 else left)
    else if stuck then 0
    else Monus(limits.sessions, sessions) + left
  }

  /** Whether a follow-up can still be asked for: in a session on this task that is not its last, or on
      a later task before final integration. */
  predicate CanExtend(limits: Limits, sessions: nat, inSession: bool, more: bool) {
    (if inSession then sessions < limits.sessions else sessions + 1 < limits.sessions) || (more && limits.sessions >= 2)
  }

  /** Sessions of the tasks from place p < last on: a task that used all its sessions without passing
      stops the run. */
  function ChainLeft(limits: Limits, sessions: nat, inSession: bool, later: nat, followUps: nat): nat
    requires followUps <= limits.followUps && sessions <= limits.sessions
  {
    if !inSession && sessions == limits.sessions then 0
    else
      limits.sessions - sessions + later * limits.sessions
      + (if CanExtend(limits, sessions, inSession, later > 0) then (limits.followUps - followUps) * limits.sessions else 0)
      + limits.sessions + limits.repairs
  }

  ghost function SessionsLeft(spec: Spec, limits: Limits, g: Generation): nat
    requires Sound(spec, limits, g)
  {
    var p, last := Turn(spec, g), Places(spec, g) - 1;
    if g.delivered then 0
    else if p < last then
      assert WithinLimits(limits, g, At(spec, g, p), LeftAt(g, p), false);
      ChainLeft(limits, At(spec, g, p).sessions, g.session.Some?, last - 1 - p, g.followUps)
    else
      FinalLeft(limits, At(spec, g, last).sessions, g.repairs, p > last, g.granted,
        g.session.None? && !g.delivering && At(spec, g, last).sessions >= limits.sessions)
  }

  function InHand(g: Generation): nat { if g.session.Some? then g.session.value.left else 0 }

  /** The decisions the run can still make. */
  ghost function Remaining(spec: Spec, limits: Limits, g: Generation): nat
    requires Sound(spec, limits, g)
  {
    limits.decisions * SessionsLeft(spec, limits, g) + InHand(g)
  }

  // ------------------------------------------------------------------ every step spends what it opens

  lemma SameTurn(spec: Spec, g: Generation, g': Generation)
    requires Covers(spec, g) && Covers(spec, g') && g'.followUps == g.followUps
    requires forall j | 0 <= j < Places(spec, g) :: At(spec, g', j).status == Passed <==> At(spec, g, j).status == Passed
    ensures Turn(spec, g') == Turn(spec, g)
  {
    TurnIs(spec, g', Turn(spec, g));
  }

  lemma LeftInChain(spec: Spec, limits: Limits, g: Generation, p: nat)
    requires Sound(spec, limits, g) && p < Places(spec, g) - 1
    requires PassedBefore(spec, g, p) && At(spec, g, p).status != Passed
    ensures At(spec, g, p).sessions <= limits.sessions && !g.delivered
    ensures SessionsLeft(spec, limits, g) ==
      ChainLeft(limits, At(spec, g, p).sessions, g.session.Some?, Places(spec, g) - 2 - p, g.followUps)
  {
    TurnIs(spec, g, p);
    assert WithinLimits(limits, g, At(spec, g, p), LeftAt(g, p), false);
  }

  /** What is left of final integration, from the values it depends on. */
  function EndLeft(limits: Limits, g: Generation, last: TaskState): nat
    requires g.repairs <= limits.repairs
  {
    if g.delivered then 0
    else FinalLeft(limits, last.sessions, g.repairs, last.status == Passed, g.granted,
      g.session.None? && !g.delivering && last.sessions >= limits.sessions)
  }

  lemma LeftAtEnd(spec: Spec, limits: Limits, g: Generation)
    requires Sound(spec, limits, g) && PassedBefore(spec, g, Places(spec, g) - 1)
    ensures SessionsLeft(spec, limits, g) == EndLeft(limits, g, At(spec, g, Places(spec, g) - 1))
  {
    var last := Places(spec, g) - 1;
    TurnIs(spec, g, if At(spec, g, last).status == Passed then last + 1 else last);
  }

  lemma ChainGoesOn(limits: Limits, sessions: nat, later: nat, followUps: nat)
    requires followUps <= limits.followUps && 0 < sessions <= limits.sessions && later > 0
    ensures ChainLeft(limits, 0, false, later - 1, followUps) <= ChainLeft(limits, sessions, true, later, followUps)
    ensures sessions == limits.sessions ==>
      ChainLeft(limits, 0, false, later - 1, followUps) == ChainLeft(limits, sessions, true, later, followUps)
  {
    assert later * limits.sessions == (later - 1) * limits.sessions + limits.sessions;
    assert CanExtend(limits, 0, false, later > 1) <==> limits.sessions >= 2;
    assert CanExtend(limits, sessions, true, true) <==> sessions < limits.sessions || limits.sessions >= 2;
    var more := (limits.followUps - followUps) * limits.sessions;
    assert more >= 0;
  }

  lemma ChainEnds(limits: Limits, sessions: nat, followUps: nat)
    requires followUps <= limits.followUps && 0 < sessions <= limits.sessions
    ensures limits.sessions + limits.repairs <= ChainLeft(limits, sessions, true, 0, followUps)
    ensures sessions == limits.sessions ==> ChainLeft(limits, sessions, true, 0, followUps) == limits.sessions + limits.repairs
  {
  }

  lemma ChainExtends(limits: Limits, sessions: nat, later: nat, followUps: nat)
    requires followUps < limits.followUps && sessions < limits.sessions
    ensures ChainLeft(limits, sessions, true, later + 1, followUps + 1) == ChainLeft(limits, sessions, true, later, followUps)
  {
    var f := limits.followUps - followUps;
    assert f * limits.sessions == (f - 1) * limits.sessions + limits.sessions;
    assert (later + 1) * limits.sessions == later * limits.sessions + limits.sessions;
  }

  lemma ChainCloses(limits: Limits, sessions: nat, later: nat, followUps: nat)
    requires followUps <= limits.followUps && sessions <= limits.sessions
    ensures ChainLeft(limits, sessions, false, later, followUps) <= ChainLeft(limits, sessions, true, later, followUps)
  {
  }

  lemma OpenSpends(spec: Spec, limits: Limits, g: Generation, place: nat, repair: bool)
    requires Linted(spec) && Sound(spec, limits, g) && Orderly(spec, g) && Enabled(spec, limits, g, OpenSession(place, repair))
    ensures Sound(spec, limits, Apply(spec, limits, g, OpenSession(place, repair)))
    ensures SessionsLeft(spec, limits, g) == SessionsLeft(spec, limits, Apply(spec, limits, g, OpenSession(place, repair))) + 1
  {
    var g' := Apply(spec, limits, g, OpenSession(place, repair));
    StepSound(spec, limits, g, OpenSession(place, repair));
    var state := At(spec, g, place);
    Updated(spec, g, place, state.(sessions := state.sessions + 1, status := Running), g');
    TurnIs(spec, g', place);
    if !repair { TurnIs(spec, g, place); }
  }

  lemma ChainLoses(limits: Limits, sessions: nat, later: nat, followUps: nat)
    requires followUps <= limits.followUps && sessions < limits.sessions
    ensures ChainLeft(limits, sessions + 1, false, later, followUps) <= ChainLeft(limits, sessions, false, later, followUps)
  {
    var more := (limits.followUps - followUps) * limits.sessions;
    assert more >= 0 && later * limits.sessions >= 0;
  }

  lemma EndLoses(limits: Limits, g: Generation, last: TaskState)
    requires g.repairs <= limits.repairs && g.session.None? && (g.granted ==> !g.delivered)
    requires g.granted || (last.status != Passed && last.sessions < limits.sessions && !g.delivering)
    ensures EndLeft(limits, Resting(g), last.(sessions := last.sessions + 1)) <= EndLeft(limits, g, last)
  {
  }

  /** What a lost session leaves, from the values it depends on. */
  lemma LostLeft(spec: Spec, limits: Limits, g: Generation, g': Generation, place: nat)
    requires Sound(spec, limits, g) && Sound(spec, limits, g') && CanOpen(spec, limits, g, place, g.granted)
    requires g' == Resting(g').(repairs := g.repairs, delivered := g.delivered, followUps := g.followUps)
    requires forall j | 0 <= j < Places(spec, g) && j != place :: At(spec, g', j) == At(spec, g, j)
    requires At(spec, g', place) == At(spec, g, place).(sessions := At(spec, g, place).sessions + 1)
    ensures SessionsLeft(spec, limits, g') <= SessionsLeft(spec, limits, g)
  {
    PassedPrefix(spec, g, g', place);
    if place < Places(spec, g) - 1 {
      LeftInChain(spec, limits, g, place);
      LeftInChain(spec, limits, g', place);
      ChainLoses(limits, At(spec, g, place).sessions, Places(spec, g) - 2 - place, g.followUps);
    } else {
      LeftAtEnd(spec, limits, g);
      LeftAtEnd(spec, limits, g');
      EndLoses(limits, g, At(spec, g, place));
    }
  }

  lemma LoseSpends(spec: Spec, limits: Limits, g: Generation, place: nat, repair: bool)
    requires Linted(spec) && Sound(spec, limits, g) && Orderly(spec, g) && Enabled(spec, limits, g, LoseSession(place, repair))
    ensures Sound(spec, limits, Apply(spec, limits, g, LoseSession(place, repair)))
    ensures SessionsLeft(spec, limits, Apply(spec, limits, g, LoseSession(place, repair))) <= SessionsLeft(spec, limits, g)
  {
    var g', state := Apply(spec, limits, g, LoseSession(place, repair)), At(spec, g, place);
    LoseSound(spec, limits, g, place, repair);
    Updated(spec, g, place, state.(sessions := state.sessions + 1), g');
    LostLeft(spec, limits, g, g', place);
  }

  lemma DecideSpends(spec: Spec, limits: Limits, g: Generation)
    requires Linted(spec) && Sound(spec, limits, g) && Enabled(spec, limits, g, Decide)
    ensures Sound(spec, limits, Apply(spec, limits, g, Decide))
    ensures SessionsLeft(spec, limits, Apply(spec, limits, g, Decide)) == SessionsLeft(spec, limits, g)
  {
    var g' := Apply(spec, limits, g, Decide);
    StepSound(spec, limits, g, Decide);
    var place := g.session.value.place;
    var state := At(spec, g, place);
    Updated(spec, g, place, state.(decisions := state.decisions + 1), g');
    SameTurn(spec, g, g');
  }

  lemma ScheduleSpends(spec: Spec, limits: Limits, g: Generation)
    requires Sound(spec, limits, g) && Enabled(spec, limits, g, Schedule)
    ensures Sound(spec, limits, Apply(spec, limits, g, Schedule))
    ensures SessionsLeft(spec, limits, Apply(spec, limits, g, Schedule)) == SessionsLeft(spec, limits, g)
  {
    var g' := Apply(spec, limits, g, Schedule);
    var p := g.session.value.place;
    ScheduleSound(spec, limits, g);
    Scheduled(spec, g, g');
    LeftInChain(spec, limits, g, p);
    LeftInChain(spec, limits, g', p);
    ChainExtends(limits, At(spec, g, p).sessions, Places(spec, g) - 2 - p, g.followUps);
  }

  lemma PassedLeft(spec: Spec, limits: Limits, g: Generation, g': Generation)
    requires Sound(spec, limits, g) && Orderly(spec, g) && g.session.Some? && Sound(spec, limits, g')
    requires g.followUps == g'.followUps && g.repairs == g'.repairs && !g'.granted && g'.delivering == g.delivering
    requires !g'.delivered && g'.session.None?
    requires forall j | 0 <= j < Places(spec, g) && j != g.session.value.place :: At(spec, g', j) == At(spec, g, j)
    requires var p := g.session.value.place; At(spec, g', p).status == Passed && At(spec, g', p).sessions == At(spec, g, p).sessions
    ensures SessionsLeft(spec, limits, g') <= SessionsLeft(spec, limits, g)
    ensures At(spec, g, g.session.value.place).sessions == limits.sessions ==>
      SessionsLeft(spec, limits, g') == SessionsLeft(spec, limits, g)
  {
    var place, last := g.session.value.place, Places(spec, g) - 1;
    assert PassedBefore(spec, g', place + 1);
    if place == last {
      LeftAtEnd(spec, limits, g);
      LeftAtEnd(spec, limits, g');
    } else {
      LeftInChain(spec, limits, g, place);
      NextUntouched(spec, limits, g);
      if place + 1 == last {
        ChainEnds(limits, At(spec, g, place).sessions, g.followUps);
        LeftAtEnd(spec, limits, g');
      } else {
        ChainGoesOn(limits, At(spec, g, place).sessions, last - 1 - place, g.followUps);
        LeftInChain(spec, limits, g', place + 1);
      }
    }
  }

  lemma AcceptSpends(spec: Spec, limits: Limits, g: Generation, e: Step)
    requires Linted(spec) && Sound(spec, limits, g) && Orderly(spec, g) && e.AcceptTask? && Enabled(spec, limits, g, e)
    ensures Sound(spec, limits, Apply(spec, limits, g, e))
    ensures SessionsLeft(spec, limits, Apply(spec, limits, g, e)) <= SessionsLeft(spec, limits, g)
    ensures At(spec, g, g.session.value.place).sessions == limits.sessions ==>
      SessionsLeft(spec, limits, Apply(spec, limits, g, e)) == SessionsLeft(spec, limits, g)
  {
    AcceptSound(spec, limits, g, e);
    var place := g.session.value.place;
    Updated(spec, g, place, At(spec, g, place).(status := Passed, claims := e.claims), Apply(spec, limits, g, e));
    PassedLeft(spec, limits, g, Apply(spec, limits, g, e));
  }

  /** The task after the one at work has opened no session, and no repair has been counted. */
  lemma NextUntouched(spec: Spec, limits: Limits, g: Generation)
    requires Sound(spec, limits, g) && Orderly(spec, g) && g.session.Some? && g.session.value.place < Places(spec, g) - 1
    ensures At(spec, g, g.session.value.place).sessions > 0
    ensures At(spec, g, g.session.value.place + 1).sessions == 0 && At(spec, g, g.session.value.place + 1).status != Passed
    ensures g.repairs == 0 && !g.delivering
  {
    var p := g.session.value.place;
    assert !PassedBefore(spec, g, p + 1) && !PassedBefore(spec, g, Places(spec, g) - 1);
  }

  lemma SurrenderSpends(spec: Spec, limits: Limits, g: Generation, place: nat)
    requires Linted(spec) && Sound(spec, limits, g) && Enabled(spec, limits, g, Surrender(place))
    ensures Sound(spec, limits, Apply(spec, limits, g, Surrender(place)))
    ensures SessionsLeft(spec, limits, Apply(spec, limits, g, Surrender(place))) == SessionsLeft(spec, limits, g)
  {
    var g' := Apply(spec, limits, g, Surrender(place));
    SurrenderSound(spec, limits, g, place);
    Updated(spec, g, place, At(spec, g, place).(status := GaveUp), g');
    SameTurn(spec, g, g');
  }

  /** While a task before final integration has its turn, nothing but that task's sessions counts. */
  lemma ChainKeeps(spec: Spec, limits: Limits, g: Generation, g': Generation)
    requires Sound(spec, limits, g) && Sound(spec, limits, g') && g'.tasks == g.tasks && g'.followUps == g.followUps
    requires Turn(spec, g) < Places(spec, g) - 1 && (g'.session.Some? ==> g.session.Some?)
    ensures SessionsLeft(spec, limits, g') <= SessionsLeft(spec, limits, g)
  {
    var p := Turn(spec, g);
    Untouched(spec, g, g');
    PassedPrefix(spec, g, g', p);
    LeftInChain(spec, limits, g, p);
    LeftInChain(spec, limits, g', p);
    ChainCloses(limits, At(spec, g, p).sessions, Places(spec, g) - 2 - p, g.followUps);
  }

  lemma EndValues(spec: Spec, limits: Limits, g: Generation, g': Generation)
    requires Sound(spec, limits, g) && Sound(spec, limits, g') && g'.tasks == g.tasks && g'.followUps == g.followUps
    requires PassedBefore(spec, g, Places(spec, g) - 1)
    ensures SessionsLeft(spec, limits, g) == EndLeft(limits, g, At(spec, g, Places(spec, g) - 1))
    ensures SessionsLeft(spec, limits, g') == EndLeft(limits, g', At(spec, g, Places(spec, g) - 1))
  {
    Untouched(spec, g, g');
    PassedPrefix(spec, g, g', Places(spec, g) - 1);
    LeftAtEnd(spec, limits, g);
    LeftAtEnd(spec, limits, g');
  }

  lemma EndStep(spec: Spec, limits: Limits, g: Generation, e: Step)
    requires Sound(spec, limits, g) && Orderly(spec, g) && Enabled(spec, limits, g, e)
    requires e.CloseSession? || e.BeginDelivery? || e.GrantRepair? || e.Check? || e.Deliver? || e.Succeed? || e.Withdraw? || e.Stop?
    ensures Apply(spec, limits, g, e).repairs <= limits.repairs
    ensures var last := At(spec, g, Places(spec, g) - 1);
      EndLeft(limits, Apply(spec, limits, g, e), last) <= EndLeft(limits, g, last)
  {
    if e.BeginDelivery? || e.Check? { assert At(spec, g, Places(spec, g) - 1).status == Passed; }
    if g.session.Some? && g.session.value.place < Places(spec, g) - 1 { NextUntouched(spec, limits, g); }
  }

  lemma OtherSpends(spec: Spec, limits: Limits, g: Generation, e: Step)
    requires Linted(spec) && Sound(spec, limits, g) && Orderly(spec, g) && Enabled(spec, limits, g, e)
    requires e.CloseSession? || e.BeginDelivery? || e.GrantRepair? || e.Check? || e.Deliver? || e.Succeed? || e.Withdraw? || e.Stop?
    ensures Sound(spec, limits, Apply(spec, limits, g, e))
    ensures SessionsLeft(spec, limits, Apply(spec, limits, g, e)) <= SessionsLeft(spec, limits, g)
  {
    OtherSound(spec, limits, g, e);
    if Turn(spec, g) < Places(spec, g) - 1 {
      ChainKeeps(spec, limits, g, Apply(spec, limits, g, e));
    } else {
      EndStep(spec, limits, g, e);
      EndValues(spec, limits, g, Apply(spec, limits, g, e));
    }
  }

  lemma StepKeepsSessions(spec: Spec, limits: Limits, g: Generation, e: Step)
    requires Linted(spec) && Sound(spec, limits, g) && Orderly(spec, g) && Enabled(spec, limits, g, e)
    ensures Sound(spec, limits, Apply(spec, limits, g, e))
    ensures SessionsLeft(spec, limits, Apply(spec, limits, g, e)) + (if e.OpenSession? then 1 else 0) <= SessionsLeft(spec, limits, g)
  {
    match e
    case OpenSession(place, repair) => OpenSpends(spec, limits, g, place, repair);
    case LoseSession(place, repair) => LoseSpends(spec, limits, g, place, repair);
    case Decide => DecideSpends(spec, limits, g);
    case Schedule => ScheduleSpends(spec, limits, g);
    case AcceptTask(_, _, _) => AcceptSpends(spec, limits, g, e);
    case Surrender(place) => SurrenderSpends(spec, limits, g, place);
    case _ => OtherSpends(spec, limits, g, e);
  }

  lemma SessionPays(d: nat, begun: nat, left: nat, hand: nat, before: nat)
    requires left + begun <= before
    ensures d * left + d * begun + hand <= d * before + hand
  {
  }

  lemma InHandAfter(spec: Spec, limits: Limits, g: Generation, e: Step)
    requires Enabled(spec, limits, g, e)
    ensures e.OpenSession? ==> InHand(Apply(spec, limits, g, e)) == limits.decisions && InHand(g) == 0
    ensures !e.OpenSession? ==> InHand(Apply(spec, limits, g, e)) + (if e.Decide? then 1 else 0) <= InHand(g)
  {
  }

  /** No step makes a decision that was not left, and none adds to what is left. */
  lemma StepSpends(spec: Spec, limits: Limits, g: Generation, e: Step)
    requires Linted(spec) && Sound(spec, limits, g) && Orderly(spec, g) && Enabled(spec, limits, g, e)
    ensures Sound(spec, limits, Apply(spec, limits, g, e)) && Orderly(spec, Apply(spec, limits, g, e))
    ensures Remaining(spec, limits, Apply(spec, limits, g, e)) + (if e.Decide? then 1 else 0) <= Remaining(spec, limits, g)
  {
    StepOrderly(spec, limits, g, e);
    StepKeepsSessions(spec, limits, g, e);
    InHandAfter(spec, limits, g, e);
    var left := SessionsLeft(spec, limits, Apply(spec, limits, g, e));
    SessionPays(limits.decisions, if e.OpenSession? then 1 else 0, left, 0, SessionsLeft(spec, limits, g));
  }

  // ------------------------------------------------------------------ all that is left can be spent

  /** The same sessions and passes, whatever was decided. */
  predicate SameSessions(spec: Spec, g: Generation, g': Generation) {
    && Covers(spec, g) && Covers(spec, g')
    && g'.followUps == g.followUps && g'.repairs == g.repairs && g'.delivered == g.delivered
    && g'.granted == g.granted && g'.delivering == g.delivering && g'.succeeded == g.succeeded
    && forall i | 0 <= i < Places(spec, g) ::
         At(spec, g', i).sessions == At(spec, g, i).sessions && At(spec, g', i).status == At(spec, g, i).status
  }

  lemma Preceded(spec: Spec, limits: Limits, g: Generation, e: Step, steps: seq<Step>)
    requires Enabled(spec, limits, g, e) && Happens(spec, limits, Apply(spec, limits, g, e), steps)
    ensures Happens(spec, limits, g, [e] + steps)
    ensures Final(spec, limits, g, [e] + steps) == Final(spec, limits, Apply(spec, limits, g, e), steps)
    ensures DecisionsMade([e] + steps) == (if e.Decide? then 1 else 0) + DecisionsMade(steps)
  {
    assert ([e] + steps)[1..] == steps;
  }

  lemma SameSessionsAgain(spec: Spec, g: Generation, g1: Generation, g2: Generation)
    requires SameSessions(spec, g, g1) && SameSessions(spec, g1, g2)
    ensures SameSessions(spec, g, g2)
  {
    forall i | 0 <= i < Places(spec, g)
      ensures At(spec, g2, i).sessions == At(spec, g, i).sessions && At(spec, g2, i).status == At(spec, g, i).status
    {
      assert At(spec, g1, i).sessions == At(spec, g, i).sessions;
    }
  }

  lemma DecideOnce(spec: Spec, limits: Limits, g: Generation)
    requires Linted(spec) && Sound(spec, limits, g) && Orderly(spec, g) && Enabled(spec, limits, g, Decide)
    ensures var g' := Apply(spec, limits, g, Decide);
      && Sound(spec, limits, g') && Orderly(spec, g') && SameSessions(spec, g, g')
      && SessionsLeft(spec, limits, g') == SessionsLeft(spec, limits, g)
  {
    StepOrderly(spec, limits, g, Decide);
    DecideSpends(spec, limits, g);
    var place := g.session.value.place;
    Updated(spec, g, place, At(spec, g, place).(decisions := At(spec, g, place).decisions + 1), Apply(spec, limits, g, Decide));
  }

  lemma {:induction false} DecideAll(spec: Spec, limits: Limits, g: Generation, k: nat) returns (steps: seq<Step>)
    requires Linted(spec) && Sound(spec, limits, g) && Orderly(spec, g)
    requires g.session.Some? && k <= g.session.value.left && !g.succeeded
    ensures Happens(spec, limits, g, steps) && DecisionsMade(steps) == k
    ensures var g' := Final(spec, limits, g, steps);
      && Sound(spec, limits, g') && Orderly(spec, g') && SameSessions(spec, g, g')
      && g'.session == Some(Session(g.session.value.place, g.session.value.left - k))
      && SessionsLeft(spec, limits, g') == SessionsLeft(spec, limits, g)
    decreases k
  {
    if k == 0 {
      steps := [];
    } else {
      var g' := Apply(spec, limits, g, Decide);
      DecideOnce(spec, limits, g);
      steps := DecideAll(spec, limits, g', k - 1);
      SameSessionsAgain(spec, g, g', Final(spec, limits, g', steps));
      Preceded(spec, limits, g, Decide, steps);
      steps := [Decide] + steps;
    }
  }

  lemma OpenOnce(spec: Spec, limits: Limits, g: Generation, place: nat, repair: bool)
    requires Linted(spec) && Sound(spec, limits, g) && Orderly(spec, g)
    requires Enabled(spec, limits, g, OpenSession(place, repair))
    ensures var g' := Apply(spec, limits, g, OpenSession(place, repair));
      && Sound(spec, limits, g') && Orderly(spec, g') && g'.session == Some(Session(place, limits.decisions))
      && place < Places(spec, g') && PassedBefore(spec, g', place)
      && At(spec, g', place).sessions == At(spec, g, place).sessions + 1 && At(spec, g', place).status == Running
      && SessionsLeft(spec, limits, g') + 1 == SessionsLeft(spec, limits, g)
  {
    StepOrderly(spec, limits, g, OpenSession(place, repair));
    OpenSpends(spec, limits, g, place, repair);
    var state := At(spec, g, place);
    Updated(spec, g, place, state.(sessions := state.sessions + 1, status := Running), Apply(spec, limits, g, OpenSession(place, repair)));
  }

  /** Opens a session and makes every decision it holds. */
  lemma UseSession(spec: Spec, limits: Limits, g: Generation, place: nat, repair: bool) returns (steps: seq<Step>)
    requires Linted(spec) && Sound(spec, limits, g) && Orderly(spec, g)
    requires Enabled(spec, limits, g, OpenSession(place, repair))
    ensures Happens(spec, limits, g, steps) && DecisionsMade(steps) == limits.decisions
    ensures var g' := Final(spec, limits, g, steps);
      && Sound(spec, limits, g') && Orderly(spec, g') && g'.session == Some(Session(place, 0))
      && g'.followUps == g.followUps && g'.delivering == g.delivering && !g'.succeeded && place < Places(spec, g')
      && At(spec, g', place).sessions == At(spec, g, place).sessions + 1 && At(spec, g', place).status == Running
      && SessionsLeft(spec, limits, g') + 1 == SessionsLeft(spec, limits, g)
  {
    OpenOnce(spec, limits, g, place, repair);
    var g1 := Apply(spec, limits, g, OpenSession(place, repair));
    steps := DecideAll(spec, limits, g1, limits.decisions);
    assert At(spec, Final(spec, limits, g1, steps), place).sessions == At(spec, g1, place).sessions;
    Preceded(spec, limits, g, OpenSession(place, repair), steps);
    steps := [OpenSession(place, repair)] + steps;
  }

  /** Claims that pass: each primary requirement implemented. */
  function FullClaims(task: Task): seq<Claim> {
    seq(|task.requirements|, i requires 0 <= i < |task.requirements| => Claim(task.requirements[i], Implemented, true, true, true))
  }

  lemma FullClaimsValid(spec: Spec, k: nat, i: nat)
    requires Linted(spec) && i < Size(spec, k)
    ensures ValidClaims(TaskAt(spec, k, i), FullClaims(TaskAt(spec, k, i)))
  {
    var task := TaskAt(spec, k, i);
    PrimaryUnique(spec, k, i);
    assert Ids(FullClaims(task)) == task.requirements;
    ValidClaimsCoverOnceIff(task, FullClaims(task));
  }

  lemma PassLast(spec: Spec, limits: Limits, g: Generation) returns (steps: seq<Step>)
    requires Linted(spec) && Sound(spec, limits, g) && Orderly(spec, g) && g.session.Some? && !g.succeeded
    requires At(spec, g, g.session.value.place).sessions == limits.sessions
    ensures Happens(spec, limits, g, steps) && DecisionsMade(steps) == 0
    ensures var g' := Final(spec, limits, g, steps);
      && Sound(spec, limits, g') && Orderly(spec, g') && g'.session.None? && !g'.succeeded
      && SessionsLeft(spec, limits, g') == SessionsLeft(spec, limits, g)
  {
    var place := g.session.value.place;
    FullClaimsValid(spec, g.followUps, place);
    var e := AcceptTask(FullClaims(TaskAt(spec, g.followUps, place)), true, true);
    AcceptSpends(spec, limits, g, e);
    StepOrderly(spec, limits, g, e);
    steps := [e];
  }

  /** Closing a session that is not the task's last loses nothing once follow-ups were asked for. */
  lemma ChainStays(limits: Limits, sessions: nat, later: nat, followUps: nat)
    requires followUps <= limits.followUps && 0 < sessions < limits.sessions && (followUps < limits.followUps ==> later > 0)
    ensures ChainLeft(limits, sessions, false, later, followUps) == ChainLeft(limits, sessions, true, later, followUps)
  {
    var more := (limits.followUps - followUps) * limits.sessions;
    assert followUps == limits.followUps ==> more == 0;
  }

  lemma CloseOnce(spec: Spec, limits: Limits, g: Generation)
    requires Linted(spec) && Sound(spec, limits, g) && Orderly(spec, g) && Enabled(spec, limits, g, CloseSession)
    requires g.delivering || At(spec, g, g.session.value.place).sessions < limits.sessions
    requires g.session.value.place < Places(spec, g) - 1 && g.followUps < limits.followUps ==> g.session.value.place < Places(spec, g) - 2
    ensures var g' := g.(session := None);
      && Sound(spec, limits, g') && Orderly(spec, g')
      && SessionsLeft(spec, limits, g') == SessionsLeft(spec, limits, g)
  {
    var g', p := g.(session := None), g.session.value.place;
    StepOrderly(spec, limits, g, CloseSession);
    if p < Places(spec, g) - 1 {
      Untouched(spec, g, g');
      PassedPrefix(spec, g, g', p);
      NextUntouched(spec, limits, g);
      LeftInChain(spec, limits, g, p);
      LeftInChain(spec, limits, g', p);
      ChainStays(limits, At(spec, g, p).sessions, Places(spec, g) - 2 - p, g.followUps);
    } else {
      EndValues(spec, limits, g, g');
    }
  }

  lemma ExtendAndClose(spec: Spec, limits: Limits, g: Generation) returns (steps: seq<Step>)
    requires Linted(spec) && Sound(spec, limits, g) && Orderly(spec, g)
    requires g.session.Some? && g.session.value.left == 0 && !g.succeeded && Enabled(spec, limits, g, Schedule)
    ensures Happens(spec, limits, g, steps) && DecisionsMade(steps) == 0
    ensures var g' := Final(spec, limits, g, steps);
      && Sound(spec, limits, g') && Orderly(spec, g') && g'.session.None? && !g'.succeeded
      && SessionsLeft(spec, limits, g') == SessionsLeft(spec, limits, g)
  {
    var g1 := Apply(spec, limits, g, Schedule);
    StepOrderly(spec, limits, g, Schedule);
    ScheduleSpends(spec, limits, g);
    Scheduled(spec, g, g1);
    CloseOnce(spec, limits, g1);
    steps := [Schedule, CloseSession];
    assert steps[1..] == [CloseSession] && steps[1..][1..] == [];
  }

  /** What ends a session whose decisions are made: a pass in its task's last session, and otherwise a
      follow-up where one can be asked for. Nothing that was left is lost. */
  lemma EndSession(spec: Spec, limits: Limits, g: Generation) returns (steps: seq<Step>)
    requires Linted(spec) && Sound(spec, limits, g) && Orderly(spec, g)
    requires g.session.Some? && g.session.value.left == 0 && !g.succeeded
    requires g.delivering || At(spec, g, g.session.value.place).sessions <= limits.sessions
    ensures Happens(spec, limits, g, steps) && DecisionsMade(steps) == 0
    ensures var g' := Final(spec, limits, g, steps);
      && Sound(spec, limits, g') && Orderly(spec, g') && g'.session.None? && !g'.succeeded
      && SessionsLeft(spec, limits, g') == SessionsLeft(spec, limits, g)
  {
    var place := g.session.value.place;
    if At(spec, g, place).sessions == limits.sessions && !g.delivering {
      steps := PassLast(spec, limits, g);
    } else {
      if place < Places(spec, g) - 1 { NextUntouched(spec, limits, g); }
      if place < Places(spec, g) - 1 && g.followUps < limits.followUps {
        steps := ExtendAndClose(spec, limits, g);
      } else {
        CloseOnce(spec, limits, g);
        steps := [CloseSession];
        assert steps[1..] == [];
      }
    }
  }

  predicate Idle(g: Generation) { g.session.None? && !g.succeeded }

  /** A session can be opened now, and closing it will lose nothing. */
  predicate Openable(spec: Spec, limits: Limits, g: Generation, place: nat, repair: bool) {
    Enabled(spec, limits, g, OpenSession(place, repair)) && (g.delivering || At(spec, g, place).sessions < limits.sessions)
  }

  /** One step that changes no task and loses nothing that final integration has left. */
  lemma PrepareStep(spec: Spec, limits: Limits, g: Generation, e: Step)
    requires Linted(spec) && Sound(spec, limits, g) && Orderly(spec, g) && Idle(g) && Enabled(spec, limits, g, e)
    requires PassedBefore(spec, g, Places(spec, g) - 1)
    requires e.Stop? || e.BeginDelivery? || e.GrantRepair? || e.Check?
    requires var last := At(spec, g, Places(spec, g) - 1);
      EndLeft(limits, Apply(spec, limits, g, e), last) == EndLeft(limits, g, last)
    ensures var g' := Apply(spec, limits, g, e);
      && Sound(spec, limits, g') && Orderly(spec, g') && Idle(g')
      && SessionsLeft(spec, limits, g') == SessionsLeft(spec, limits, g)
      && PassedBefore(spec, g', Places(spec, g') - 1)
  {
    StepOrderly(spec, limits, g, e);
    EndValues(spec, limits, g, Apply(spec, limits, g, e));
    Untouched(spec, g, Apply(spec, limits, g, e));
  }

  predicate Ready(spec: Spec, limits: Limits, g: Generation) {
    Sound(spec, limits, g) && Orderly(spec, g) && Idle(g)
  }

  /** Steps that change no task and make no decision, from one ready state to another with as much left. */
  ghost predicate Leads(spec: Spec, limits: Limits, g: Generation, steps: seq<Step>, g': Generation) {
    && Happens(spec, limits, g, steps) && Final(spec, limits, g, steps) == g' && DecisionsMade(steps) == 0
    && Ready(spec, limits, g) && Ready(spec, limits, g')
    && SessionsLeft(spec, limits, g') == SessionsLeft(spec, limits, g)
  }

  lemma LeadsOne(spec: Spec, limits: Limits, g: Generation, e: Step)
    requires Linted(spec) && Ready(spec, limits, g) && Enabled(spec, limits, g, e)
    requires PassedBefore(spec, g, Places(spec, g) - 1)
    requires e.Stop? || e.BeginDelivery? || e.GrantRepair? || e.Check?
    requires var last := At(spec, g, Places(spec, g) - 1);
      EndLeft(limits, Apply(spec, limits, g, e), last) == EndLeft(limits, g, last)
    ensures Leads(spec, limits, g, [e], Apply(spec, limits, g, e))
  {
    PrepareStep(spec, limits, g, e);
    Preceded(spec, limits, g, e, []);
    assert [e] + [] == [e];
  }

  lemma LeadsOn(spec: Spec, limits: Limits, g: Generation, a: seq<Step>, g1: Generation, b: seq<Step>, g2: Generation)
    requires Leads(spec, limits, g, a, g1) && Leads(spec, limits, g1, b, g2)
    ensures Leads(spec, limits, g, a + b, g2)
  {
    Joined(spec, limits, g, a, b);
  }

  lemma PrepareGranted(spec: Spec, limits: Limits, g: Generation) returns (g': Generation)
    requires Linted(spec) && Ready(spec, limits, g) && !g.granted && !g.delivered && g.delivering
    requires PassedBefore(spec, g, Places(spec, g) - 1) && g.repairs < limits.repairs
    requires AllPassed(spec, g) || At(spec, g, Places(spec, g) - 1).sessions >= limits.sessions
    ensures Leads(spec, limits, g, [GrantRepair], g') && Openable(spec, limits, g', Places(spec, g') - 1, true)
  {
    g' := Apply(spec, limits, g, GrantRepair);
    LeadsOne(spec, limits, g, GrantRepair);
    Untouched(spec, g, g');
  }

  lemma PrepareChecked(spec: Spec, limits: Limits, g: Generation) returns (steps: seq<Step>, g': Generation)
    requires Linted(spec) && Ready(spec, limits, g) && !g.granted && !g.delivered && g.delivering
    requires AllPassed(spec, g) && g.repairs < limits.repairs
    ensures Leads(spec, limits, g, steps, g') && Openable(spec, limits, g', Places(spec, g') - 1, true)
  {
    var e := Check(true, true, false);
    var g1 := Apply(spec, limits, g, e);
    LeadsOne(spec, limits, g, e);
    Untouched(spec, g, g1);
    g' := PrepareGranted(spec, limits, g1);
    LeadsOn(spec, limits, g, [e], g1, [GrantRepair], g');
    steps := [e] + [GrantRepair];
  }

  /** The steps before a repair: delivery begins if it has not, its checks fail, a repair is granted. */
  lemma PrepareRepair(spec: Spec, limits: Limits, g: Generation) returns (steps: seq<Step>, g': Generation)
    requires Linted(spec) && Ready(spec, limits, g) && !g.granted && !g.delivered
    requires AllPassed(spec, g) && g.repairs < limits.repairs
    ensures Leads(spec, limits, g, steps, g') && Openable(spec, limits, g', Places(spec, g') - 1, true)
  {
    if g.delivering {
      steps, g' := PrepareChecked(spec, limits, g);
    } else {
      var g1 := Apply(spec, limits, g, BeginDelivery);
      LeadsOne(spec, limits, g, BeginDelivery);
      Untouched(spec, g, g1);
      var more, g2 := PrepareChecked(spec, limits, g1);
      LeadsOn(spec, limits, g, [BeginDelivery], g1, more, g2);
      steps, g' := [BeginDelivery] + more, g2;
    }
  }

  lemma PrepareEnd(spec: Spec, limits: Limits, g: Generation) returns (steps: seq<Step>, g': Generation, repair: bool)
    requires Linted(spec) && Ready(spec, limits, g) && SessionsLeft(spec, limits, g) > 0
    requires PassedBefore(spec, g, Places(spec, g) - 1)
    ensures Leads(spec, limits, g, steps, g') && Openable(spec, limits, g', Places(spec, g') - 1, repair)
  {
    LeftAtEnd(spec, limits, g);
    var last := Places(spec, g) - 1;
    if g.granted {
      steps, g', repair := [], g, true;
    } else if AllPassed(spec, g) {
      steps, g' := PrepareRepair(spec, limits, g);
      repair := true;
    } else if g.delivering && At(spec, g, last).sessions >= limits.sessions {
      g' := PrepareGranted(spec, limits, g);
      steps, repair := [GrantRepair], true;
    } else if g.delivering {
      g' := Apply(spec, limits, g, Stop);
      LeadsOne(spec, limits, g, Stop);
      Untouched(spec, g, g');
      steps, repair := [Stop], false;
    } else {
      steps, g', repair := [], g, false;
    }
  }

  /** Where sessions are left, one can be opened without losing any. */
  lemma Prepare(spec: Spec, limits: Limits, g: Generation)
    returns (steps: seq<Step>, g': Generation, place: nat, repair: bool)
    requires Linted(spec) && Ready(spec, limits, g) && SessionsLeft(spec, limits, g) > 0
    ensures Leads(spec, limits, g, steps, g') && Openable(spec, limits, g', place, repair)
  {
    place := Turn(spec, g);
    if place < Places(spec, g) - 1 {
      LeftInChain(spec, limits, g, place);
      steps, g', repair := [], g, g.granted;
    } else {
      steps, g', repair := PrepareEnd(spec, limits, g);
      place := Places(spec, g') - 1;
    }
  }

  lemma UseAndEnd(spec: Spec, limits: Limits, g: Generation, place: nat, repair: bool) returns (steps: seq<Step>)
    requires Linted(spec) && Ready(spec, limits, g) && Openable(spec, limits, g, place, repair)
    ensures Happens(spec, limits, g, steps) && DecisionsMade(steps) == limits.decisions
    ensures var g' := Final(spec, limits, g, steps);
      Ready(spec, limits, g') && SessionsLeft(spec, limits, g') + 1 == SessionsLeft(spec, limits, g)
  {
    var used := UseSession(spec, limits, g, place, repair);
    var ended := EndSession(spec, limits, Final(spec, limits, g, used));
    Joined(spec, limits, g, used, ended);
    steps := used + ended;
  }

  lemma SpendSession(spec: Spec, limits: Limits, g: Generation) returns (steps: seq<Step>)
    requires Linted(spec) && Ready(spec, limits, g) && SessionsLeft(spec, limits, g) > 0
    ensures Happens(spec, limits, g, steps) && DecisionsMade(steps) == limits.decisions
    ensures var g' := Final(spec, limits, g, steps);
      Ready(spec, limits, g') && SessionsLeft(spec, limits, g') + 1 == SessionsLeft(spec, limits, g)
  {
    var before, g1, place, repair := Prepare(spec, limits, g);
    var used := UseAndEnd(spec, limits, g1, place, repair);
    Joined(spec, limits, g, before, used);
    steps := before + used;
  }

  /** Some history makes every decision that is left. */
  lemma {:induction false} SpendAll(spec: Spec, limits: Limits, g: Generation) returns (steps: seq<Step>)
    requires Linted(spec) && Ready(spec, limits, g)
    ensures Happens(spec, limits, g, steps) && DecisionsMade(steps) == Remaining(spec, limits, g)
    decreases SessionsLeft(spec, limits, g)
  {
    if SessionsLeft(spec, limits, g) == 0 {
      steps := [];
    } else {
      var first := SpendSession(spec, limits, g);
      var rest := SpendAll(spec, limits, Final(spec, limits, g, first));
      Joined(spec, limits, g, first, rest);
      steps := first + rest;
      MoreSessions(limits.decisions, SessionsLeft(spec, limits, g));
    }
  }

  lemma MoreSessions(d: nat, n: nat)
    requires n > 0
    ensures d * (n - 1) + d == d * n
  {
  }

  /** No history makes more. */
  lemma {:induction false} SpendsAtMost(spec: Spec, limits: Limits, g: Generation, steps: seq<Step>)
    requires Linted(spec) && Sound(spec, limits, g) && Orderly(spec, g) && Happens(spec, limits, g, steps)
    ensures Sound(spec, limits, Final(spec, limits, g, steps)) && Orderly(spec, Final(spec, limits, g, steps))
    ensures DecisionsMade(steps) + Remaining(spec, limits, Final(spec, limits, g, steps)) <= Remaining(spec, limits, g)
    decreases |steps|
  {
    if steps != [] {
      StepSpends(spec, limits, g, steps[0]);
      SpendsAtMost(spec, limits, Apply(spec, limits, g, steps[0]), steps[1..]);
    }
  }

  /** What a run has left bounds its whole future, and is reached: the bound n holds of every
      history exactly when no more than n is left. */
  lemma RemainingIsExact(spec: Spec, limits: Limits, g: Generation, n: nat)
    requires Linted(spec) && Ready(spec, limits, g)
    ensures (forall steps | Happens(spec, limits, g, steps) :: DecisionsMade(steps) <= n) <==> Remaining(spec, limits, g) <= n
  {
    var most := SpendAll(spec, limits, g);
    if Remaining(spec, limits, g) <= n {
      forall steps | Happens(spec, limits, g, steps)
        ensures DecisionsMade(steps) <= n
      {
        SpendsAtMost(spec, limits, g, steps);
      }
    } else {
      assert Happens(spec, limits, g, most) && DecisionsMade(most) > n;
    }
  }

  /** What a new run has left: its configuration and first plan, and the follow-ups where a task has a
      session to ask for one in. */
  lemma NewRemaining(spec: Spec, limits: Limits)
    requires Linted(spec)
    ensures Ready(spec, limits, NewGeneration(spec))
    ensures Remaining(spec, limits, NewGeneration(spec)) ==
      if limits.sessions == 0 then 0
      else limits.decisions * (limits.sessions * (Size(spec, 0) + if limits.sessions == 1 then 0 else limits.followUps) + limits.repairs)
  {
    NewOrderly(spec, limits);
    var g := NewGeneration(spec);
    LeftInChain(spec, limits, g, 0);
    NewSessions(limits.sessions, limits.followUps, Size(spec, 0));
  }

  lemma NewSessions(s: nat, f: nat, n: nat)
    requires n >= 2
    ensures s + (n - 2) * s + s == s * n
    ensures s + (n - 2) * s + f * s + s == s * (n + f)
  {
    assert (n - 2) * s == n * s - 2 * s;
    assert s * (n + f) == s * n + s * f;
  }

  lemma SoundWith(spec: Spec, limits: Limits, g: Generation, n: nat)
    requires Sound(spec, limits, g) && g.followUps <= n
    ensures Sound(spec, limits.(followUps := n), g)
  {
    forall i | 0 <= i < Places(spec, g)
      ensures WithinLimits(limits.(followUps := n), g, At(spec, g, i), LeftAt(g, i), i == Places(spec, g) - 1)
    {
      assert WithinLimits(limits, g, At(spec, g, i), LeftAt(g, i), i == Places(spec, g) - 1);
    }
  }

  lemma FewerSessions(d: nat, m: nat, n: nat)
    requires m <= n
    ensures d * m <= d * n
  {
  }

  lemma ChainWithFewer(limits: Limits, n: nat, sessions: nat, inSession: bool, later: nat, followUps: nat)
    requires followUps <= n <= limits.followUps && sessions <= limits.sessions
    ensures ChainLeft(limits.(followUps := n), sessions, inSession, later, followUps) <=
            ChainLeft(limits, sessions, inSession, later, followUps)
  {
    FewerSessions(limits.sessions, n - followUps, limits.followUps - followUps);
  }

  /** With fewer follow-ups to ask for, no more is left. */
  lemma FewerFollowUps(spec: Spec, limits: Limits, g: Generation, n: nat)
    requires Sound(spec, limits, g) && g.followUps <= n <= limits.followUps
    ensures Sound(spec, limits.(followUps := n), g)
    ensures Remaining(spec, limits.(followUps := n), g) <= Remaining(spec, limits, g)
  {
    var fewer := limits.(followUps := n);
    SoundWith(spec, limits, g, n);
    var p := Turn(spec, g);
    if p < Places(spec, g) - 1 {
      LeftInChain(spec, limits, g, p);
      LeftInChain(spec, fewer, g, p);
      ChainWithFewer(limits, n, At(spec, g, p).sessions, g.session.Some?, Places(spec, g) - 2 - p, g.followUps);
    } else {
      LeftAtEnd(spec, limits, g);
      LeftAtEnd(spec, fewer, g);
    }
    FewerSessions(limits.decisions, SessionsLeft(spec, fewer, g), SessionsLeft(spec, limits, g));
  }
}
