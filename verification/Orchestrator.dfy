/** The coding session and the orchestrator's two loops, updating one run in place. Every update is
    one step of the run's lifecycle, so all that holds of its histories holds of these methods. */
module Orchestrator {
  import opened Outcomes
  import opened Plan
  import opened Lifecycle
  import Resumption

  /** An exception that reaches the orchestrator, by the handler that takes it. */
  datatype Fault = BudgetSpent | Interrupt | StoreFault | RuntimeFault | OtherFault

  datatype Exit = Success | SessionsExhausted(place: nat) | RepairsExhausted | Faulted(fault: Fault)

  function ExitCode(e: Exit): nat {
    match e
    case Success => 0
    case SessionsExhausted(_) => 2
    case RepairsExhausted => 2
    case Faulted(BudgetSpent) => 3
    case Faulted(Interrupt) => 130
    case Faulted(StoreFault) => 20
    case Faulted(RuntimeFault) => 2
    case Faulted(OtherFault) => 1
  }

  /** Zero only for success, two when a limit of sessions or repairs is used up or something fails at run time, three when
      the money is, twenty for a store that does not check, 130 for an interruption, one for anything else. */
  lemma ExitCodes(e: Exit)
    ensures ExitCode(e) == 0 <==> e == Success
    ensures ExitCode(e) == 2 <==> e.SessionsExhausted? || e.RepairsExhausted? || e == Faulted(RuntimeFault)
    ensures ExitCode(e) == 3 <==> e == Faulted(BudgetSpent)
    ensures ExitCode(e) == 20 <==> e == Faulted(StoreFault)
    ensures ExitCode(e) == 130 <==> e == Faulted(Interrupt)
    ensures ExitCode(e) == 1 <==> e == Faulted(OtherFault)
  {
  }

  /** What the model asked for in one decision. */
  datatype Act = Malformed | Finish(claims: seq<Claim>) | RequestFollowUp(wellFormed: bool) | OtherTool

  /** What the outside world does in one round: what the model asks for, how builds and
      verifications turn out, and what is raised before, during or after it. */
  datatype Round = Round(
    act: Act,
    complete: bool,
    built: bool,
    verified: bool,
    early: Option<Fault>,
    inCall: Option<Fault>,
    late: Option<Fault>)

  class Environment {
    const rounds: nat -> Round
    var clock: nat

    constructor (rounds: nat -> Round)
      ensures this.rounds == rounds && clock == 0
    {
      this.rounds := rounds;
      this.clock := 0;
    }

    method Next() returns (r: Round)
      modifies this
      ensures clock == old(clock) + 1 && r == rounds(old(clock))
    {
      r := rounds(clock);
      clock := clock + 1;
    }
  }

  datatype FollowUpError = FinalRepairsItself | LimitExhausted | TaskSessionsExhausted | BadRequest

  /** Which of append_followup's checks refuses a request, if any. */
  function FollowUpRefusal(spec: Spec, limits: Limits, g: Generation, place: nat, wellFormed: bool): Option<FollowUpError>
    requires Covers(spec, g) && place < Places(spec, g)
  {
    if place == Places(spec, g) - 1 then Some(FinalRepairsItself)
    else if g.followUps >= limits.followUps then Some(LimitExhausted)
    else if At(spec, g, place).sessions >= limits.sessions then Some(TaskSessionsExhausted)
    else if !wellFormed then Some(BadRequest)
    else None
  }

  class Orchestrator {
    const spec: Spec
    const limits: Limits
    const world: Environment
    ghost const start: Generation
    var plan: seq<Task>
    var run: Generation
    ghost var history: seq<Step>

    /** The run is where this process's steps lead from the state it was opened in, and the active
        plan is the one its follow-ups make. */
    ghost predicate Valid()
      reads this
    {
      && Linted(spec)
      && Happens(spec, limits, start, history)
      && run == Final(spec, limits, start, history)
      && Sound(spec, limits, run)
      && plan == PlanOf(spec, run.followUps)
    }

    /** A process opening a run, new or to be resumed. */
    constructor (spec: Spec, limits: Limits, world: Environment, run: Generation)
      requires Linted(spec) && Sound(spec, limits, run)
      ensures Valid() && this.spec == spec && this.limits == limits && this.world == world
      ensures this.run == run == this.start && history == []
    {
      this.spec := spec;
      this.limits := limits;
      this.world := world;
      this.start := run;
      this.run := run;
      this.history := [];
      this.plan := PlanOf(spec, run.followUps);
    }

    /** Records in the history a step whose effect has been written to the run. */
    ghost method Note(e: Step, before: Generation)
      requires Linted(spec) && Happens(spec, limits, start, history)
      requires before == Final(spec, limits, start, history) && Sound(spec, limits, before)
      requires Enabled(spec, limits, before, e) && run == Apply(spec, limits, before, e)
      requires plan == PlanOf(spec, run.followUps)
      modifies this`history
      ensures Valid() && history == old(history) + [e]
    {
      Appended(spec, limits, start, history, e);
      StepSound(spec, limits, before, e);
      history := history + [e];
    }

    method SetTask(place: nat, state: TaskState)
      requires place < Places(spec, run)
      modifies this`run
      ensures run == WithTask(spec, old(run), place, state)
    {
      run := run.(tasks := run.tasks[TaskOf(spec, run, place) := state]);
    }

    /** The first task of the plan that has not passed. */
    method FirstPending() returns (place: Option<nat>)
      requires Valid()
      ensures place.None? <==> AllPassed(spec, run)
      ensures place.Some? ==> place.value < Places(spec, run) && PassedBefore(spec, run, place.value)
      ensures place.Some? ==> At(spec, run, place.value).status != Passed
    {
      for i := 0 to Places(spec, run)
        invariant PassedBefore(spec, run, i)
      {
        if At(spec, run, i).status != Passed {
          return Some(i);
        }
      }
      return None;
    }

    // ---------------------------------------------------------------- follow-ups

    /** Inserts a follow-up before final integration and relinks the chain. */
    method Insert()
      requires Valid() && Enabled(spec, limits, run, Schedule)
      modifies this
      ensures Valid() && history == old(history) + [Schedule]
      ensures run == old(Apply(spec, limits, run, Schedule))
    {
      ghost var before := run;
      plan := Extend(spec, plan, run.followUps);
      run := run.(tasks := run.tasks[FollowUp(run.followUps + 1) := UNTOUCHED]);
      run := run.(followUps := run.followUps + 1);
      Note(Schedule, before);
    }

    method AppendFollowUp(wellFormed: bool) returns (r: Result<(), FollowUpError>)
      requires Valid() && run.session.Some? && !run.succeeded
      modifies this
      ensures Valid()
      ensures r.Err? <==> old(FollowUpRefusal(spec, limits, run, run.session.value.place, wellFormed)).Some?
      ensures r.Err? ==> Some(r.error) == old(FollowUpRefusal(spec, limits, run, run.session.value.place, wellFormed))
      ensures var place, last := old(run).session.value.place, Places(spec, old(run)) - 1;
        && (r == Err(FinalRepairsItself) <==> place == last)
        && (r == Err(LimitExhausted) <==> place != last && old(run).followUps >= limits.followUps)
        && (r == Err(TaskSessionsExhausted) <==>
              place != last && old(run).followUps < limits.followUps && At(spec, old(run), place).sessions >= limits.sessions)
        && (r.Ok? <==>
              && place != last && old(run).followUps < limits.followUps && At(spec, old(run), place).sessions < limits.sessions
              && wellFormed)
      ensures r.Err? ==> run == old(run) && history == old(history)
      ensures r.Ok? ==> run.followUps == old(run).followUps + 1 && plan == PlanOf(spec, old(run).followUps + 1)
      ensures r.Ok? ==> history == old(history) + [Schedule]
      ensures r.Ok? ==> old(Enabled(spec, limits, run, Schedule)) && run == old(Apply(spec, limits, run, Schedule))
    {
      var place := run.session.value.place;
      if place == Places(spec, run) - 1 {
        return Err(FinalRepairsItself);
      }
      if run.followUps >= limits.followUps {
        return Err(LimitExhausted);
      }
      if At(spec, run, place).sessions >= limits.sessions {
        return Err(TaskSessionsExhausted);
      }
      if !wellFormed {
        return Err(BadRequest);
      }
      Insert();
      return Ok(());
    }

    // ---------------------------------------------------------------- sessions

    method Open(place: nat, repair: bool)
      requires Valid() && Enabled(spec, limits, run, OpenSession(place, repair))
      modifies this`run, this`history
      ensures Valid() && history == old(history) + [OpenSession(place, repair)]
      ensures run == old(Apply(spec, limits, run, OpenSession(place, repair)))
    {
      ghost var before := run;
      var state := At(spec, run, place);
      SetTask(place, state.(sessions := state.sessions + 1, status := Running));
      run := run.(session := Some(Session(place, limits.decisions)), granted := false);
      Note(OpenSession(place, repair), before);
    }

    method CountDecision()
      requires Valid() && Enabled(spec, limits, run, Decide)
      modifies this`run, this`history
      ensures Valid() && history == old(history) + [Decide]
      ensures run == old(Apply(spec, limits, run, Decide))
    {
      ghost var before := run;
      var Session(place, left) := run.session.value;
      var state := At(spec, run, place);
      SetTask(place, state.(decisions := state.decisions + 1));
      run := run.(session := Some(Session(place, left - 1)));
      Note(Decide, before);
    }

    method Accept(claims: seq<Claim>, built: bool, verified: bool)
      requires Valid() && Enabled(spec, limits, run, AcceptTask(claims, built, verified))
      modifies this`run, this`history
      ensures Valid() && history == old(history) + [AcceptTask(claims, built, verified)]
      ensures run == old(Apply(spec, limits, run, AcceptTask(claims, built, verified)))
    {
      ghost var before := run;
      var place := run.session.value.place;
      SetTask(place, At(spec, run, place).(status := Passed, claims := claims));
      run := run.(session := None);
      Note(AcceptTask(claims, built, verified), before);
    }

    /** Whether a round finishes the task: claims that check out, a build, and a verification too
        for final integration. */
    predicate Finishes(round: Round, place: nat)
      requires place < Places(spec, run)
      reads this
    {
      && round.act.Finish? && ValidClaims(TaskAt(spec, run.followUps, place), round.act.claims)
      && round.built && (place == Places(spec, run) - 1 ==> round.verified)
    }

    function Schedules(round: Round, place: nat): nat
      requires Covers(spec, run) && place < Places(spec, run)
      reads this
    {
      if round.act.RequestFollowUp? && FollowUpRefusal(spec, limits, run, place, round.act.wellFormed).None? then 1 else 0
    }

    /** A session is open on the place, with the decisions it has left. */
    ghost predicate Working(place: nat, left: nat)
      requires Covers(spec, run)
      reads this
    {
      run.session == Some(Session(place, left)) && place < Places(spec, run) && !run.succeeded && !run.delivered
    }

    /** What the action of a round does before it is recorded. Claims that do not check out, and
        refused follow-ups, have no effect. */
    method Perform(round: Round, place: nat) returns (finished: bool)
      requires Valid() && run.session.Some? && Working(place, run.session.value.left)
      modifies this
      ensures Valid() && old(history) <= history
      ensures Working(place, old(run).session.value.left) && run.granted == old(run).granted && run.delivering == old(run).delivering
      ensures finished == old(Finishes(round, place)) && (finished ==> Finishes(round, place))
      ensures At(spec, run, place) == old(At(spec, run, place)) && run.repairs == old(run).repairs
      ensures run.followUps == old(run.followUps + Schedules(round, place))
    {
      finished := false;
      match round.act {
        case Finish(claims) =>
          if ValidClaims(TaskAt(spec, run.followUps, place), claims) {
            finished := round.built;
            if finished && place == Places(spec, run) - 1 {
              finished := round.verified;
            }
          }
        case RequestFollowUp(wellFormed) =>
          ghost var before := run;
          var r := AppendFollowUp(wellFormed);
          if r.Ok? {
            Scheduled(spec, before, run);
          }
        case _ =>
      }
    }

    /** What follows the paid call: the action, and acceptance if it finishes the task. */
    method Act(round: Round, place: nat) returns (r: Result<bool, Fault>)
      requires Valid() && run.session.Some? && Working(place, run.session.value.left) && !run.granted
      modifies this
      ensures Valid() && old(history) <= history
      ensures r.Err? <==> round.late.Some?
      ensures r.Ok? ==> (r.value <==> old(Finishes(round, place)))
      ensures run.followUps == old(run.followUps + Schedules(round, place))
      ensures r.Ok? && r.value ==> run.session.None? && place < Places(spec, run) && At(spec, run, place).status == Passed
      ensures r.Ok? && !r.value ==> Working(place, old(run).session.value.left)
      ensures !run.succeeded && !run.delivered && !run.granted && place < Places(spec, run)
      ensures At(spec, run, place).sessions == old(At(spec, run, place).sessions)
      ensures r.Ok? ==> PassedBefore(spec, run, place)
      ensures run.repairs == old(run).repairs && run.delivering == old(run).delivering
    {
      var finished := Perform(round, place);
      if round.late.Some? {
        return Err(round.late.value);
      }
      if finished {
        Accept(round.act.claims, round.built, round.verified);
      }
      return Ok(finished);
    }

    /** One decision: the budget check, the paid call, and what the action asks for. */
    method TakeDecision(place: nat) returns (r: Result<bool, Fault>)
      requires Valid() && run.session.Some? && Working(place, run.session.value.left) && run.session.value.left > 0
      modifies this, world
      ensures Valid() && old(history) <= history && world.clock == old(world.clock) + 1
      ensures r.Err? <==> var round := world.rounds(old(world.clock));
        round.early.Some? || round.inCall.Some? || round.late.Some?
      ensures r.Ok? ==>
        var round, was := world.rounds(old(world.clock)), old(run);
        && (r.value <==>
              && round.act.Finish? && ValidClaims(TaskAt(spec, was.followUps, place), round.act.claims) && round.built
              && (place == Places(spec, was) - 1 ==> round.verified))
        && run.followUps == was.followUps +
             if round.act.RequestFollowUp? && round.act.wellFormed && place < Places(spec, was) - 1
               && was.followUps < limits.followUps && At(spec, was, place).sessions < limits.sessions then 1 else 0
      ensures r.Ok? && r.value ==> run.session.None? && place < Places(spec, run) && At(spec, run, place).status == Passed
      ensures r.Ok? && !r.value ==> Working(place, old(run).session.value.left - 1)
      ensures !run.succeeded && !run.delivered && !run.granted && place < Places(spec, run)
      ensures At(spec, run, place).sessions == old(At(spec, run, place).sessions)
      ensures r.Ok? ==> PassedBefore(spec, run, place)
      ensures old(place == Places(spec, run) - 1) ==> run.followUps == old(run).followUps
      ensures run.repairs == old(run).repairs && run.delivering == old(run).delivering
    {
      var round := world.Next();
      if round.early.Some? {
        return Err(round.early.value);
      }
      CountDecision();
      if round.inCall.Some? {
        return Err(round.inCall.value);
      }
      r := Act(round, place);
    }

    method Close()
      requires Valid() && Enabled(spec, limits, run, CloseSession)
      modifies this`run, this`history
      ensures Valid() && history == old(history) + [CloseSession]
      ensures run == old(run).(session := None)
    {
      ghost var before := run;
      run := run.(session := None);
      Note(CloseSession, before);
    }

    method GiveUpOn(place: nat)
      requires Valid() && Enabled(spec, limits, run, Surrender(place))
      modifies this`run, this`history
      ensures Valid() && history == old(history) + [Surrender(place)]
      ensures run == old(Apply(spec, limits, run, Surrender(place)))
    {
      ghost var before := run;
      SetTask(place, At(spec, run, place).(status := GaveUp));
      Note(Surrender(place), before);
    }

    /** Between sessions on a place whose predecessors have passed. */
    ghost predicate Ready(place: nat)
      requires Covers(spec, run)
      reads this
    {
      && !run.succeeded && !run.delivered && run.session.None?
      && place < Places(spec, run) && PassedBefore(spec, run, place)
    }

    /** The decisions of a session just opened, until one finishes the task or none is left. */
    method SpendDecisions(place: nat) returns (r: Result<bool, Fault>)
      requires Valid() && Working(place, limits.decisions) && !run.granted
      modifies this, world
      ensures Valid() && old(history) <= history && !run.granted && place < Places(spec, run)
      ensures r.Ok? && !r.value ==> Working(place, 0) && PassedBefore(spec, run, place)
      ensures r.Ok? && r.value ==> Ready(place) && At(spec, run, place).status == Passed
      ensures At(spec, run, place).sessions == old(At(spec, run, place).sessions)
      ensures !run.succeeded && !run.delivered && run.repairs == old(run).repairs && run.delivering == old(run).delivering
      ensures old(place == Places(spec, run) - 1) ==> run.followUps == old(run).followUps
    {
      ghost var last, before := place == Places(spec, run) - 1, run;
      for decision := 0 to limits.decisions
        invariant Valid() && Working(place, limits.decisions - decision) && !run.granted && old(history) <= history
        invariant run.repairs == before.repairs && run.delivering == before.delivering
        invariant At(spec, run, place).sessions == old(At(spec, run, place).sessions)
        invariant last ==> run.followUps == before.followUps
      {
        var finished :- TakeDecision(place);
        if finished {
          return Ok(true);
        }
      }
      return Ok(false);
    }

    /** One session: opened, at most D decisions, and closed unless one of them finished the task. */
    method RunSession(place: nat, repair: bool) returns (r: Result<bool, Fault>)
      requires Valid() && Ready(place) && Enabled(spec, limits, run, OpenSession(place, repair))
      modifies this, world
      ensures Valid() && old(history) <= history && !run.granted && place < Places(spec, run)
      ensures r.Ok? ==> Ready(place) && (r.value <==> At(spec, run, place).status == Passed)
      ensures At(spec, run, place).sessions == old(At(spec, run, place).sessions) + 1
      ensures !run.succeeded && !run.delivered && run.repairs == old(run).repairs && run.delivering == old(run).delivering
      ensures old(place == Places(spec, run) - 1) ==> run.followUps == old(run).followUps
    {
      ghost var before := run;
      Open(place, repair);
      Updated(spec, before, place, At(spec, before, place).(
        sessions := At(spec, before, place).sessions + 1, status := Running), run);
      r := SpendDecisions(place);
      if r.Ok? && !r.value {
        Untouched(spec, run, run.(session := None));
        Close();
      }
    }

    /** Up to the task's remaining sessions, or one for a repair; then the task has failed. */
    method RunTask(place: nat, repair: bool) returns (r: Result<bool, Fault>)
      requires Valid() && Ready(place) && repair == run.granted
      requires if repair then place == Places(spec, run) - 1 else !run.delivering && At(spec, run, place).status != Passed
      modifies this, world
      ensures Valid() && old(history) <= history && !run.succeeded && !run.delivered
      ensures run.repairs == old(run).repairs && run.delivering == old(run).delivering
      ensures r.Ok? ==> Ready(place) && !run.granted && (r.value <==> At(spec, run, place).status == Passed)
      ensures r.Ok? && !r.value && !repair ==> At(spec, run, place).sessions >= limits.sessions
      ensures old(place == Places(spec, run) - 1) ==> run.followUps == old(run).followUps
    {
      ghost var before := run;
      ghost var last := place == Places(spec, run) - 1;
      var remaining := if repair then 1 else limits.sessions - At(spec, run, place).sessions;
      var begun := 0;
      while begun < remaining
        invariant Valid() && Ready(place) && old(history) <= history
        invariant run.repairs == before.repairs && run.delivering == before.delivering
        invariant run.granted == (repair && begun == 0)
        invariant !repair || begun > 0 ==> At(spec, run, place).status != Passed
        invariant At(spec, run, place).sessions == At(spec, before, place).sessions + begun
        invariant last ==> run.followUps == before.followUps
      {
        begun := begun + 1;
        var finished :- RunSession(place, repair);
        if finished {
          return Ok(true);
        }
      }
      ghost var spent := run;
      GiveUpOn(place);
      Updated(spec, spent, place, At(spec, spent, place).(status := GaveUp), run);
      return Ok(false);
    }

    // ---------------------------------------------------------------- the two loops

    /** Every task in plan order. Each round of the loop passes one more task for good; follow-ups
        lengthen the plan at most F times. */
    method PassTasks() returns (r: Result<(), Exit>)
      requires Valid() && run.session.None? && !run.delivering && !run.granted && !run.succeeded
      modifies this, world
      ensures Valid() && old(history) <= history && !run.succeeded
      ensures r.Ok? ==> AllPassed(spec, run) && run.session.None? && !run.granted && !run.delivering
      ensures r.Err? && r.error.SessionsExhausted? ==> Exhausted(r.error.place)
      ensures r.Err? ==> !r.error.RepairsExhausted? && !r.error.Success?
    {
      ghost var done := 0;
      while true
        invariant Valid() && old(history) <= history && !run.delivering && run.session.None? && !run.granted && !run.succeeded
        invariant done <= Places(spec, run) && PassedBefore(spec, run, done)
        decreases Size(spec, 0) + limits.followUps - done
      {
        var round := world.Next();
        if round.early.Some? {
          return Err(Faulted(round.early.value));
        }
        var pending := FirstPending();
        if pending.None? {
          return Ok(());
        }
        var passed := RunTask(pending.value, false);
        if passed.Err? {
          return Err(Faulted(passed.error));
        }
        if !passed.value {
          return Err(SessionsExhausted(pending.value));
        }
        done := pending.value + 1;
      }
    }

    /** The task at the place has used all its sessions and not passed; all before it have. */
    predicate Exhausted(place: nat)
      reads this
    {
      && Covers(spec, run) && place < Places(spec, run) && PassedBefore(spec, run, place)
      && At(spec, run, place).status != Passed && At(spec, run, place).sessions >= limits.sessions
    }

    /** The recorded tasks are exactly the plan's, so looking through them in any order will do. */
    method EveryTaskPassed() returns (all: bool)
      requires Valid()
      ensures all <==> AllPassed(spec, run)
    {
      all := forall id | id in run.tasks :: run.tasks[id].status == Passed;
      if !all {
        ghost var id :| id in run.tasks && run.tasks[id].status != Passed;
        ghost var place := PlannedPlace(spec, run.followUps, id);
        assert At(spec, run, place).status != Passed;
      } else {
        assert forall i | 0 <= i < Places(spec, run) :: TaskOf(spec, run, i) in run.tasks;
      }
    }

    method RecordCheck(complete: bool, built: bool, verified: bool)
      requires Valid() && Enabled(spec, limits, run, Check(complete, built, verified))
      modifies this`run, this`history
      ensures Valid() && history == old(history) + [Check(complete, built, verified)]
      ensures run == old(run).(checks := Some(complete && built && verified))
    {
      ghost var before := run;
      run := run.(checks := Some(complete && built && verified));
      Note(Check(complete, built, verified), before);
    }

    method RecordDelivery()
      requires Valid() && Enabled(spec, limits, run, Deliver)
      modifies this`run, this`history
      ensures Valid() && history == old(history) + [Deliver]
      ensures run == old(run).(delivered := true)
    {
      ghost var before := run;
      run := run.(delivered := true);
      Note(Deliver, before);
    }

    /** Checks a copy of the project and publishes it when the checks pass; a delivery already
        published stands. */
    method ExportDelivery() returns (r: Result<bool, Fault>)
      requires Valid() && run.delivering && AllPassed(spec, run) && run.session.None? && !run.granted && !run.succeeded
      modifies this, world
      ensures Valid() && old(history) <= history && !run.succeeded && AllPassed(spec, run)
      ensures run == old(run).(checks := run.checks, delivered := run.delivered)
      ensures r.Ok? ==> (r.value <==> run.delivered)
      ensures r.Ok? && !old(run).delivered ==>
        var round := world.rounds(old(world.clock));
        r.value <==> round.complete && round.built && round.verified
    {
      if run.delivered {
        return Ok(run.checks == Some(true));
      }
      var round := world.Next();
      if round.early.Some? {
        return Err(round.early.value);
      }
      ghost var before := run;
      RecordCheck(round.complete, round.built, round.verified);
      Untouched(spec, before, run);
      if run.checks != Some(true) {
        return Ok(false);
      }
      RecordDelivery();
      Untouched(spec, before, run);
      return Ok(true);
    }

    method CountRepair()
      requires Valid() && Enabled(spec, limits, run, GrantRepair)
      modifies this`run, this`history
      ensures Valid() && history == old(history) + [GrantRepair]
      ensures run == old(run).(repairs := old(run).repairs + 1, granted := true)
    {
      ghost var before := run;
      run := run.(repairs := run.repairs + 1, granted := true);
      Note(GrantRepair, before);
    }

    /** Counts a final repair, then gives final integration one more session. */
    method Repair() returns (r: Result<(), Exit>)
      requires Valid() && run.delivering && run.session.None? && !run.granted && !run.succeeded && !run.delivered
      requires PassedBefore(spec, run, Places(spec, run) - 1) && run.repairs < limits.repairs
      modifies this, world
      ensures Valid() && old(history) <= history && !run.succeeded && !run.delivered
      ensures run.repairs == old(run).repairs + 1
      ensures r.Ok? ==> run.delivering && run.session.None? && !run.granted && PassedBefore(spec, run, Places(spec, run) - 1)
      ensures r.Err? ==> r.error.Faulted?
    {
      ghost var before := run;
      CountRepair();
      Untouched(spec, before, run);
      var round := world.Next();
      if round.early.Some? {
        return Err(Faulted(round.early.value));
      }
      var repaired := RunTask(Places(spec, run) - 1, true);
      if repaired.Err? {
        return Err(Faulted(repaired.error));
      }
      return Ok(());
    }

    /** Delivery, with a repair of final integration after each failure while repairs remain. */
    method DeliverOrRepair() returns (r: Result<(), Exit>)
      requires Valid() && run.delivering && AllPassed(spec, run) && run.session.None? && !run.granted && !run.succeeded
      modifies this, world
      ensures Valid() && old(history) <= history && !run.succeeded
      ensures r.Ok? ==> run.delivering && AllPassed(spec, run) && run.session.None? && !run.granted
      ensures r.Ok? ==> run.delivered && run.checks == Some(true)
      ensures r.Err? && r.error.RepairsExhausted? ==> run.repairs == limits.repairs && !run.delivered
      ensures r.Err? ==> !r.error.SessionsExhausted? && !r.error.Success?
    {
      while true
        invariant Valid() && run.delivering && old(history) <= history && run.session.None? && !run.granted && !run.succeeded
        invariant PassedBefore(spec, run, Places(spec, run) - 1)
        decreases limits.repairs - run.repairs
      {
        var allPassed := EveryTaskPassed();
        if allPassed {
          var exported := ExportDelivery();
          if exported.Err? {
            return Err(Faulted(exported.error));
          }
          if exported.value {
            return Ok(());
          }
        }
        if run.repairs >= limits.repairs {
          return Err(RepairsExhausted);
        }
        r := Repair();
        if r.Err? {
          return r;
        }
      }
    }

    method StartDelivery()
      requires Valid() && Enabled(spec, limits, run, BeginDelivery)
      modifies this`run, this`history
      ensures Valid() && history == old(history) + [BeginDelivery] && run == old(run).(delivering := true)
    {
      ghost var before := run;
      run := run.(delivering := true);
      Note(BeginDelivery, before);
      Untouched(spec, before, run);
    }

    /** Both loops, from recovery to the state in which the run may be called a success. */
    method Generate() returns (r: Result<(), Exit>)
      requires Valid() && !run.delivering && run.session.None? && !run.granted && !run.succeeded
      modifies this, world
      ensures Valid() && old(history) <= history && !run.succeeded
      ensures r.Ok? ==> run.delivering && AllPassed(spec, run) && run.delivered && run.checks == Some(true)
      ensures r.Err? && r.error.SessionsExhausted? ==> Exhausted(r.error.place)
      ensures r.Err? && r.error.RepairsExhausted? ==> run.repairs == limits.repairs && !run.delivered
      ensures r.Err? ==> !r.error.Success?
    {
      var round := world.Next();
      if round.early.Some? {
        return Err(Faulted(round.early.value));
      }
      r := PassTasks();
      if r.Ok? {
        StartDelivery();
        r := DeliverOrRepair();
      }
    }

    method RecordSuccess()
      requires Valid() && Enabled(spec, limits, run, Succeed)
      modifies this`run, this`history
      ensures Valid() && history == old(history) + [Succeed] && run == old(run).(succeeded := true)
    {
      ghost var before := run;
      run := run.(succeeded := true);
      Note(Succeed, before);
    }

    method RecordWithdrawal()
      requires Valid() && run.succeeded
      modifies this`run, this`history
      ensures Valid() && history == old(history) + [Withdraw] && run == old(run).(succeeded := false)
    {
      ghost var before := run;
      run := run.(succeeded := false);
      Note(Withdraw, before);
    }

    /** What the process held dies with it. */
    method Leave()
      requires Valid()
      modifies this`run, this`history
      ensures Valid() && history == old(history) + [Stop] && run == Resting(old(run))
    {
      ghost var before := run;
      run := Resting(run);
      Note(Stop, before);
    }

    /** One process's whole work on the run, first or resumed: after any history of the run's other
        processes, from a record it locked and under the limits that record leaves it. It always ends; it
        reports success exactly when it leaves the run successful, and an exhausted limit only when that
        limit is used up. A report that cannot be published costs the success. The decisions of all
        processes are within the configured bound, beyond those the record had been made to forget. */
    method Run(ghost configured: Limits, ghost past: seq<Resumption.Event>) returns (exit: Exit)
      requires Valid() && history == [] && !run.delivering && run.session.None? && !run.granted
      requires Resumption.Steady(spec, configured, Resumption.NewWorld(spec))
      requires Resumption.Occurs(spec, configured, Resumption.NewWorld(spec), past)
      requires var w := Resumption.Last(spec, configured, Resumption.NewWorld(spec), past);
        && w.held && Resumption.Listed(w.record) && w.record.run == run && w.record.plan == Resumption.PlanIds(plan)
        && limits == Resumption.Effective(configured, w)
      modifies this, world
      ensures Valid() && run.session.None? && !run.granted
      ensures exit == Success <==> run.succeeded
      ensures exit == Success <==> ExitCode(exit) == 0
      ensures exit == Success ==> AllPassed(spec, run) && run.delivered && run.checks == Some(true)
      ensures exit.SessionsExhausted? ==>
        && Covers(spec, run) && exit.place < Places(spec, run) && PassedBefore(spec, run, exit.place)
        && At(spec, run, exit.place).status != Passed && At(spec, run, exit.place).sessions >= limits.sessions
      ensures exit.RepairsExhausted? ==> run.repairs == limits.repairs && !run.delivered
      ensures Recorded(spec, run) == old(Recorded(spec, run)) + DecisionsMade(history)
      ensures Resumption.Made(past) + DecisionsMade(history) <=
        Resumption.Forgotten(spec, configured, Resumption.NewWorld(spec), past) +
        configured.decisions * (configured.sessions * (Size(spec, 0) + configured.followUps) + configured.repairs)
    {
      exit := Work();
      DecisionsRecorded(spec, limits, start, history);
      Resumption.ProcessWithinBound(spec, configured, past, history);
    }

    method Work() returns (exit: Exit)
      requires Valid() && !run.delivering && run.session.None? && !run.granted
      modifies this, world
      ensures Valid() && old(history) <= history && run.session.None? && !run.granted
      ensures exit == Success <==> run.succeeded
      ensures exit == Success ==> AllPassed(spec, run) && run.delivered && run.checks == Some(true)
      ensures exit.SessionsExhausted? ==> Exhausted(exit.place)
      ensures exit.RepairsExhausted? ==> run.repairs == limits.repairs && !run.delivered
    {
      if run.succeeded {
        var published := world.Next();
        if published.late.Some? {
          RecordWithdrawal();
          return Faulted(OtherFault);
        }
        return Success;
      }
      var r := Generate();
      exit := if r.Ok? then Success else r.error;
      var published := world.Next();
      if published.late.Some? {
        exit := Faulted(OtherFault);
      }
      if exit == Success {
        RecordSuccess();
      }
      ghost var before := run;
      Leave();
      Untouched(spec, before, run);
    }
  }
}
