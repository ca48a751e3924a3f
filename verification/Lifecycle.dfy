/** The life of a generation run: sessions and decisions spent on the tasks of its plan, follow-ups,
    delivery, final repairs, and any number of stops and resumptions, each from the file the last process
    left. Resumption adds the processes that work from older files, and cut follow-ups. */
module Lifecycle {
  import opened Outcomes
  import opened Plan
  import opened Sequences

  datatype Limits = Limits(sessions: nat, decisions: nat, followUps: nat, repairs: nat)

  datatype TaskState = TaskState(status: Status, sessions: nat, decisions: nat, claims: seq<Claim>)

  /** A session at work on the task at a place of the plan, and the decisions it has left. */
  datatype Session = Session(place: nat, left: nat)

  /** The part of run.json that steers the run; `session`, `granted` (a final repair counted but not
      begun) and `delivering` (the process has left its first loop) live in the process only. */
  datatype Generation = Generation(
    tasks: map<TaskId, TaskState>,
    followUps: nat,
    repairs: nat,
    checks: Option<bool>,
    delivered: bool,
    succeeded: bool,
    session: Option<Session>,
    granted: bool,
    delivering: bool)

  /** LoseSession is an interruption between a session's count and its task's status, saved by the handler
      that ends the process. */
  datatype Step =
    | OpenSession(place: nat, repair: bool)
    | LoseSession(place: nat, repair: bool)
    | Decide
    | Schedule
    | AcceptTask(claims: seq<Claim>, built: bool, verified: bool)
    | CloseSession
    | Surrender(place: nat)
    | BeginDelivery
    | GrantRepair
    | Check(complete: bool, built: bool, verified: bool)
    | Deliver
    | Succeed
    | Withdraw
    | Stop

  const UNTOUCHED := TaskState(Waiting, 0, 0, [])

  /** The plan's places under a state: how many, which task, and its state. */
  function Places(spec: Spec, g: Generation): nat { Size(spec, g.followUps) }

  function TaskOf(spec: Spec, g: Generation, i: nat): TaskId
    requires i < Places(spec, g)
  {
    IdAt(spec, g.followUps, i)
  }

  /** The ids the plan has after the given number of follow-ups. */
  predicate Planned(spec: Spec, followUps: nat, id: TaskId) {
    match id
    case Message(message) => message in spec.messages
    case Batch(n) => 1 <= n <= BatchCount(|spec.requirements|)
    case FollowUp(n) => 1 <= n <= followUps
    case _ => true
  }

  lemma PlannedPlace(spec: Spec, followUps: nat, id: TaskId) returns (i: nat)
    requires Planned(spec, followUps, id)
    ensures i < Size(spec, followUps) && IdAt(spec, followUps, i) == id
  {
    match id
    case Bootstrap => i := 0;
    case SharedWire => i := 1;
    case Message(message) =>
      var m :| 0 <= m < |spec.messages| && spec.messages[m] == message;
      i := 2 + m;
    case Batch(n) => i := 1 + |spec.messages| + n;
    case FollowUp(n) => i := 1 + |spec.messages| + BatchCount(|spec.requirements|) + n;
    case FinalIntegration => i := Size(spec, followUps) - 1;
  }

  predicate Covers(spec: Spec, g: Generation) {
    forall i | 0 <= i < Places(spec, g) :: TaskOf(spec, g, i) in g.tasks
  }

  function At(spec: Spec, g: Generation, i: nat): TaskState
    requires Covers(spec, g) && i < Places(spec, g)
  {
    g.tasks[TaskOf(spec, g, i)]
  }

  predicate PassedBefore(spec: Spec, g: Generation, n: nat)
    requires Covers(spec, g) && n <= Places(spec, g)
  {
    forall i | 0 <= i < n :: At(spec, g, i).status == Passed
  }

  predicate AllPassed(spec: Spec, g: Generation)
    requires Covers(spec, g)
  {
    PassedBefore(spec, g, Places(spec, g))
  }

  function WithTask(spec: Spec, g: Generation, i: nat, state: TaskState): Generation
    requires i < Places(spec, g)
  {
    g.(tasks := g.tasks[TaskOf(spec, g, i) := state])
  }

  /** The next session may be opened: by a repair on final integration, otherwise on the first task that
      has not passed while it has sessions left. */
  predicate CanOpen(spec: Spec, limits: Limits, g: Generation, place: nat, repair: bool)
    requires Covers(spec, g)
  {
    && g.session.None? && place < Places(spec, g) && PassedBefore(spec, g, place)
    && repair == g.granted
    && if repair then place == Places(spec, g) - 1
       else !g.delivering && At(spec, g, place).status != Passed && At(spec, g, place).sessions < limits.sessions
  }

  predicate Enabled(spec: Spec, limits: Limits, g: Generation, e: Step) {
    && (e.Stop? || e.Withdraw? || !g.succeeded)
    && Covers(spec, g)
    && match e
       case OpenSession(place, repair) => CanOpen(spec, limits, g, place, repair)
       case LoseSession(place, repair) => CanOpen(spec, limits, g, place, repair)
       case Decide => g.session.Some? && g.session.value.left > 0 && g.session.value.place < Places(spec, g)
       case Schedule =>
         && g.session.Some? && g.session.value.place < Places(spec, g) - 1
         && g.followUps < limits.followUps
         && At(spec, g, g.session.value.place).sessions < limits.sessions
       case AcceptTask(claims, built, verified) =>
         && g.session.Some? && g.session.value.place < Places(spec, g)
         && built && (g.session.value.place == Places(spec, g) - 1 ==> verified)
         && ValidClaims(TaskAt(spec, g.followUps, g.session.value.place), claims)
       case CloseSession => g.session.Some? && g.session.value.left == 0
       case Surrender(place) =>
         g.session.None? && place < Places(spec, g) && At(spec, g, place).status != Passed
       case BeginDelivery => g.session.None? && !g.granted && !g.delivering && AllPassed(spec, g)
       case GrantRepair =>
         && g.delivering && g.session.None? && !g.delivered && g.repairs < limits.repairs && !g.granted
         && PassedBefore(spec, g, Places(spec, g) - 1)
       case Check(_, _, _) => g.delivering && g.session.None? && !g.delivered && AllPassed(spec, g)
       case Deliver => g.delivering && !g.delivered && AllPassed(spec, g) && g.session.None? && !g.granted && g.checks == Some(true)
       case Succeed => g.delivering && AllPassed(spec, g) && g.delivered && g.checks == Some(true)
       case Withdraw => g.succeeded
       case Stop => true
  }

  function Apply(spec: Spec, limits: Limits, g: Generation, e: Step): Generation
    requires Enabled(spec, limits, g, e)
  {
    match e
    case OpenSession(place, repair) =>
      var state := At(spec, g, place);
      WithTask(spec, g, place, state.(sessions := state.sessions + 1, status := Running))
        .(session := Some(Session(place, limits.decisions)), granted := false)
    case LoseSession(place, repair) =>
      var state := At(spec, g, place);
      Resting(WithTask(spec, g, place, state.(sessions := state.sessions + 1)))
    case Decide =>
      var Session(place, left) := g.session.value;
      var state := At(spec, g, place);
      WithTask(spec, g, place, state.(decisions := state.decisions + 1)).(session := Some(Session(place, left - 1)))
    case Schedule => g.(tasks := g.tasks[FollowUp(g.followUps + 1) := UNTOUCHED], followUps := g.followUps + 1)
    case AcceptTask(claims, _, _) =>
      var place := g.session.value.place;
      WithTask(spec, g, place, At(spec, g, place).(status := Passed, claims := claims)).(session := None)
    case CloseSession => g.(session := None)
    case Surrender(place) => WithTask(spec, g, place, At(spec, g, place).(status := GaveUp))
    case BeginDelivery => g.(delivering := true)
    case GrantRepair => g.(repairs := g.repairs + 1, granted := true)
    case Check(complete, built, verified) => g.(checks := Some(complete && built && verified))
    case Deliver => g.(delivered := true)
    case Succeed => g.(succeeded := true)
    case Withdraw => g.(succeeded := false)
    case Stop => Resting(g)
  }

  /** What is left of a run's state when its process ends. */
  function Resting(g: Generation): Generation { g.(session := None, granted := false, delivering := false) }

  /** A history of the run, from its first process to its last. */
  ghost predicate Happens(spec: Spec, limits: Limits, g: Generation, steps: seq<Step>)
    decreases |steps|
  {
    steps != [] ==>
      Enabled(spec, limits, g, steps[0]) && Happens(spec, limits, Apply(spec, limits, g, steps[0]), steps[1..])
  }

  ghost function Final(spec: Spec, limits: Limits, g: Generation, steps: seq<Step>): Generation
    requires Happens(spec, limits, g, steps)
    decreases |steps|
  {
    if steps == [] then g else Final(spec, limits, Apply(spec, limits, g, steps[0]), steps[1..])
  }

  lemma {:induction false} Appended(spec: Spec, limits: Limits, g: Generation, steps: seq<Step>, e: Step)
    requires Happens(spec, limits, g, steps) && Enabled(spec, limits, Final(spec, limits, g, steps), e)
    ensures Happens(spec, limits, g, steps + [e])
    ensures Final(spec, limits, g, steps + [e]) == Apply(spec, limits, Final(spec, limits, g, steps), e)
    decreases |steps|
  {
    if steps == [] {
      assert (steps + [e])[1..] == [];
    } else {
      assert (steps + [e])[1..] == steps[1..] + [e];
      Appended(spec, limits, Apply(spec, limits, g, steps[0]), steps[1..], e);
    }
  }

  lemma {:induction false} Joined(spec: Spec, limits: Limits, g: Generation, first: seq<Step>, more: seq<Step>)
    requires Happens(spec, limits, g, first) && Happens(spec, limits, Final(spec, limits, g, first), more)
    ensures Happens(spec, limits, g, first + more)
    ensures Final(spec, limits, g, first + more) == Final(spec, limits, Final(spec, limits, g, first), more)
    ensures DecisionsMade(first + more) == DecisionsMade(first) + DecisionsMade(more)
    decreases |first|
  {
    if first == [] {
      assert first + more == more;
    } else {
      assert (first + more)[1..] == first[1..] + more;
      Joined(spec, limits, Apply(spec, limits, g, first[0]), first[1..], more);
    }
  }

  function NewGeneration(spec: Spec): Generation {
    var ids := set i | 0 <= i < Size(spec, 0) :: IdAt(spec, 0, i);
    Generation(map id | id in ids :: UNTOUCHED, 0, 0, None, false, false, None, false, false)
  }

  // ------------------------------------------------------------------ effects, place by place

  /** Writing one task's state changes that place and no other. */
  lemma Updated(spec: Spec, g: Generation, i: nat, state: TaskState, g': Generation)
    requires Linted(spec) && Covers(spec, g) && i < Places(spec, g)
    requires g'.tasks == g.tasks[TaskOf(spec, g, i) := state] && g'.followUps == g.followUps
    ensures Covers(spec, g')
    ensures forall j | 0 <= j < Places(spec, g') :: At(spec, g', j) == if j == i then state else At(spec, g, j)
  {
    forall j | 0 <= j < Places(spec, g')
      ensures TaskOf(spec, g', j) in g'.tasks
      ensures g'.tasks[TaskOf(spec, g', j)] == if j == i then state else At(spec, g, j)
    {
      assert TaskOf(spec, g', j) == TaskOf(spec, g, j);
    }
  }

  lemma Untouched(spec: Spec, g: Generation, g': Generation)
    requires Covers(spec, g) && g'.tasks == g.tasks && g'.followUps == g.followUps
    ensures Covers(spec, g')
    ensures forall j | 0 <= j < Places(spec, g') :: At(spec, g', j) == At(spec, g, j)
  {
    forall j | 0 <= j < Places(spec, g')
      ensures TaskOf(spec, g', j) in g'.tasks
    {
      assert TaskOf(spec, g', j) == TaskOf(spec, g, j);
    }
  }

  /** A follow-up takes the place of final integration, which moves one place on. */
  lemma Scheduled(spec: Spec, g: Generation, g': Generation)
    requires Covers(spec, g)
    requires g'.tasks == g.tasks[FollowUp(g.followUps + 1) := UNTOUCHED] && g'.followUps == g.followUps + 1
    ensures Places(spec, g') == Places(spec, g) + 1
    ensures Covers(spec, g')
    ensures forall j | 0 <= j < Places(spec, g') ::
      At(spec, g', j) == if j < Places(spec, g) - 1 then At(spec, g, j)
                         else if j == Places(spec, g) - 1 then UNTOUCHED else At(spec, g, Places(spec, g) - 1)
  {
    var last := Places(spec, g) - 1;
    forall j | 0 <= j < Places(spec, g')
      ensures TaskOf(spec, g', j) in g'.tasks
      ensures g'.tasks[TaskOf(spec, g', j)] == if j < last then At(spec, g, j) else if j == last then UNTOUCHED else At(spec, g, last)
    {
      assert TaskOf(spec, g, last) in g.tasks;
      if j < last { assert TaskOf(spec, g', j) == TaskOf(spec, g, j); }
    }
  }

  // ------------------------------------------------------------------ what every step keeps

  function LeftAt(g: Generation, i: nat): nat {
    if g.session.Some? && g.session.value.place == i then g.session.value.left else 0
  }

  /** The sessions a task may have opened by now: repairs are all final integration's. */
  function SessionCap(limits: Limits, g: Generation, last: bool): int {
    limits.sessions + if last then g.repairs - (if g.granted then 1 else 0) else 0
  }

  predicate WithinLimits(limits: Limits, g: Generation, state: TaskState, left: nat, last: bool) {
    && state.sessions <= SessionCap(limits, g, last)
    && state.decisions + left <= limits.decisions * state.sessions
  }

  predicate Honest(task: Task, state: TaskState) {
    state.status == Passed ==> ValidClaims(task, state.claims)
  }

  predicate InOrder(spec: Spec, g: Generation)
    requires Covers(spec, g)
  {
    forall i, j | 0 <= i < j < Places(spec, g) :: At(spec, g, j).status == Passed ==> At(spec, g, i).status == Passed
  }

  predicate SessionSound(spec: Spec, g: Generation)
    requires Covers(spec, g)
  {
    g.session.Some? ==>
      && !g.granted
      && g.session.value.place < Places(spec, g)
      && PassedBefore(spec, g, g.session.value.place)
      && At(spec, g, g.session.value.place).status == Running
  }

  predicate Sound(spec: Spec, limits: Limits, g: Generation) {
    && Covers(spec, g)
    && (forall id | id in g.tasks :: Planned(spec, g.followUps, id))
    && g.followUps <= limits.followUps && g.repairs <= limits.repairs && (g.granted ==> g.repairs > 0 && !g.delivered)
    && InOrder(spec, g)
    && SessionSound(spec, g)
    && (g.delivered ==> AllPassed(spec, g) && g.checks == Some(true))
    && (g.succeeded ==> g.delivered)
    && (forall i | 0 <= i < Places(spec, g) ::
          WithinLimits(limits, g, At(spec, g, i), LeftAt(g, i), i == Places(spec, g) - 1))
    && (forall i | 0 <= i < Places(spec, g) :: Honest(TaskAt(spec, g.followUps, i), At(spec, g, i)))
  }

  lemma OpenSound(spec: Spec, limits: Limits, g: Generation, place: nat, repair: bool)
    requires Linted(spec) && Sound(spec, limits, g) && Enabled(spec, limits, g, OpenSession(place, repair))
    ensures Sound(spec, limits, Apply(spec, limits, g, OpenSession(place, repair)))
  {
    var state := At(spec, g, place);
    Updated(spec, g, place, state.(sessions := state.sessions + 1, status := Running),
      Apply(spec, limits, g, OpenSession(place, repair)));
    assert limits.decisions * (state.sessions + 1) == limits.decisions * state.sessions + limits.decisions;
  }

  lemma LoseSound(spec: Spec, limits: Limits, g: Generation, place: nat, repair: bool)
    requires Linted(spec) && Sound(spec, limits, g) && Enabled(spec, limits, g, LoseSession(place, repair))
    ensures Sound(spec, limits, Apply(spec, limits, g, LoseSession(place, repair)))
  {
    var state := At(spec, g, place);
    Updated(spec, g, place, state.(sessions := state.sessions + 1), Apply(spec, limits, g, LoseSession(place, repair)));
    assert limits.decisions * (state.sessions + 1) == limits.decisions * state.sessions + limits.decisions;
  }

  lemma DecideSound(spec: Spec, limits: Limits, g: Generation)
    requires Linted(spec) && Sound(spec, limits, g) && Enabled(spec, limits, g, Decide)
    ensures Sound(spec, limits, Apply(spec, limits, g, Decide))
  {
    var place := g.session.value.place;
    var state := At(spec, g, place);
    Updated(spec, g, place, state.(decisions := state.decisions + 1), Apply(spec, limits, g, Decide));
  }

  lemma ScheduledPlace(spec: Spec, limits: Limits, g: Generation, g': Generation, j: nat)
    requires Sound(spec, limits, g) && Enabled(spec, limits, g, Schedule) && g' == Apply(spec, limits, g, Schedule)
    requires Covers(spec, g') && j < Places(spec, g')
    requires At(spec, g', j) == if j < Places(spec, g) - 1 then At(spec, g, j)
                                else if j == Places(spec, g) - 1 then UNTOUCHED else At(spec, g, Places(spec, g) - 1)
    ensures WithinLimits(limits, g', At(spec, g', j), LeftAt(g', j), j == Places(spec, g') - 1)
    ensures Honest(TaskAt(spec, g'.followUps, j), At(spec, g', j))
  {
  }

  lemma ScheduleSound(spec: Spec, limits: Limits, g: Generation)
    requires Sound(spec, limits, g) && Enabled(spec, limits, g, Schedule)
    ensures Sound(spec, limits, Apply(spec, limits, g, Schedule))
  {
    var g' := Apply(spec, limits, g, Schedule);
    Scheduled(spec, g, g');
    forall j | 0 <= j < Places(spec, g')
      ensures WithinLimits(limits, g', At(spec, g', j), LeftAt(g', j), j == Places(spec, g') - 1)
      ensures Honest(TaskAt(spec, g'.followUps, j), At(spec, g', j))
    {
      ScheduledPlace(spec, limits, g, g', j);
    }
  }

  lemma PassInOrder(spec: Spec, g: Generation, g': Generation, place: nat)
    requires Covers(spec, g) && Covers(spec, g') && g'.followUps == g.followUps && InOrder(spec, g)
    requires place < Places(spec, g) && PassedBefore(spec, g, place) && At(spec, g', place).status == Passed
    requires forall j | 0 <= j < Places(spec, g) && j != place :: At(spec, g', j) == At(spec, g, j)
    ensures InOrder(spec, g')
  {
  }

  lemma AcceptSound(spec: Spec, limits: Limits, g: Generation, e: Step)
    requires Linted(spec) && Sound(spec, limits, g) && e.AcceptTask? && Enabled(spec, limits, g, e)
    ensures Sound(spec, limits, Apply(spec, limits, g, e))
  {
    var place := g.session.value.place;
    Updated(spec, g, place, At(spec, g, place).(status := Passed, claims := e.claims), Apply(spec, limits, g, e));
    PassInOrder(spec, g, Apply(spec, limits, g, e), place);
  }

  lemma SurrenderSound(spec: Spec, limits: Limits, g: Generation, place: nat)
    requires Linted(spec) && Sound(spec, limits, g) && Enabled(spec, limits, g, Surrender(place))
    ensures Sound(spec, limits, Apply(spec, limits, g, Surrender(place)))
  {
    Updated(spec, g, place, At(spec, g, place).(status := GaveUp), Apply(spec, limits, g, Surrender(place)));
  }

  lemma OtherSound(spec: Spec, limits: Limits, g: Generation, e: Step)
    requires Linted(spec) && Sound(spec, limits, g) && Enabled(spec, limits, g, e)
    requires e.CloseSession? || e.BeginDelivery? || e.GrantRepair? || e.Check? || e.Deliver? || e.Succeed? || e.Withdraw? || e.Stop?
    ensures Sound(spec, limits, Apply(spec, limits, g, e))
  {
    Untouched(spec, g, Apply(spec, limits, g, e));
  }

  lemma StepSound(spec: Spec, limits: Limits, g: Generation, e: Step)
    requires Linted(spec) && Sound(spec, limits, g) && Enabled(spec, limits, g, e)
    ensures Sound(spec, limits, Apply(spec, limits, g, e))
  {
    match e
    case OpenSession(place, repair) => OpenSound(spec, limits, g, place, repair);
    case LoseSession(place, repair) => LoseSound(spec, limits, g, place, repair);
    case Decide => DecideSound(spec, limits, g);
    case Schedule => ScheduleSound(spec, limits, g);
    case AcceptTask(_, _, _) => AcceptSound(spec, limits, g, e);
    case Surrender(place) => SurrenderSound(spec, limits, g, place);
    case _ => OtherSound(spec, limits, g, e);
  }

  lemma {:induction false} SoundAlways(spec: Spec, limits: Limits, g: Generation, steps: seq<Step>)
    requires Linted(spec) && Sound(spec, limits, g) && Happens(spec, limits, g, steps)
    ensures Sound(spec, limits, Final(spec, limits, g, steps))
    decreases |steps|
  {
    if steps != [] {
      StepSound(spec, limits, g, steps[0]);
      SoundAlways(spec, limits, Apply(spec, limits, g, steps[0]), steps[1..]);
    }
  }

  lemma NewSound(spec: Spec, limits: Limits)
    ensures Sound(spec, limits, NewGeneration(spec))
  {
  }

  // ------------------------------------------------------------------ how many decisions are paid for

  ghost function DecisionsTo(spec: Spec, g: Generation, n: nat): nat
    requires Covers(spec, g) && n <= Places(spec, g)
  {
    if n == 0 then 0 else DecisionsTo(spec, g, n - 1) + At(spec, g, n - 1).decisions
  }

  ghost function Recorded(spec: Spec, g: Generation): nat
    requires Covers(spec, g)
  {
    DecisionsTo(spec, g, Places(spec, g))
  }

  /** The decisions made in a history: each is a provider call about to be paid for. */
  function DecisionsMade(steps: seq<Step>): nat
    decreases |steps|
  {
    if steps == [] then 0 else (if steps[0].Decide? then 1 else 0) + DecisionsMade(steps[1..])
  }

  lemma {:induction false} RaisedAt(spec: Spec, g: Generation, g': Generation, i: nat, d: nat, n: nat)
    requires Covers(spec, g) && Covers(spec, g') && n <= Places(spec, g) && n <= Places(spec, g')
    requires forall j | 0 <= j < n :: At(spec, g', j).decisions == At(spec, g, j).decisions + if j == i then d else 0
    ensures DecisionsTo(spec, g', n) == DecisionsTo(spec, g, n) + if i < n then d else 0
  {
    if n > 0 { RaisedAt(spec, g, g', i, d, n - 1); }
  }

  lemma ChangeCounts(spec: Spec, g: Generation, i: nat, state: TaskState, g': Generation, d: nat)
    requires Linted(spec) && Covers(spec, g) && i < Places(spec, g) && state.decisions == At(spec, g, i).decisions + d
    requires g'.tasks == g.tasks[TaskOf(spec, g, i) := state] && g'.followUps == g.followUps
    ensures Covers(spec, g') && Recorded(spec, g') == Recorded(spec, g) + d
  {
    Updated(spec, g, i, state, g');
    RaisedAt(spec, g, g', i, d, Places(spec, g));
  }

  lemma ScheduleCounts(spec: Spec, limits: Limits, g: Generation)
    requires Enabled(spec, limits, g, Schedule)
    ensures Covers(spec, Apply(spec, limits, g, Schedule))
    ensures Recorded(spec, Apply(spec, limits, g, Schedule)) == Recorded(spec, g)
  {
    var g' := Apply(spec, limits, g, Schedule);
    Scheduled(spec, g, g');
    RaisedAt(spec, g, g', 0, 0, Places(spec, g) - 1);
    assert DecisionsTo(spec, g', Places(spec, g)) == DecisionsTo(spec, g', Places(spec, g) - 1) + 0;
  }

  lemma StepCounts(spec: Spec, limits: Limits, g: Generation, e: Step)
    requires Linted(spec) && Enabled(spec, limits, g, e)
    ensures Covers(spec, Apply(spec, limits, g, e))
    ensures Recorded(spec, Apply(spec, limits, g, e)) == Recorded(spec, g) + if e.Decide? then 1 else 0
  {
    var g' := Apply(spec, limits, g, e);
    match e
    case OpenSession(place, _) => ChangeCounts(spec, g, place, At(spec, g, place).(
      sessions := At(spec, g, place).sessions + 1, status := Running), g', 0);
    case LoseSession(place, _) => ChangeCounts(spec, g, place, At(spec, g, place).(sessions := At(spec, g, place).sessions + 1), g', 0);
    case Decide =>
      var place := g.session.value.place;
      ChangeCounts(spec, g, place, At(spec, g, place).(decisions := At(spec, g, place).decisions + 1), g', 1);
    case Schedule => ScheduleCounts(spec, limits, g);
    case AcceptTask(claims, _, _) =>
      var place := g.session.value.place;
      ChangeCounts(spec, g, place, At(spec, g, place).(status := Passed, claims := claims), g', 0);
    case Surrender(place) => ChangeCounts(spec, g, place, At(spec, g, place).(status := GaveUp), g', 0);
    case _ =>
      Untouched(spec, g, g');
      RaisedAt(spec, g, g', 0, 0, Places(spec, g));
  }

  lemma {:induction false} DecisionsRecorded(spec: Spec, limits: Limits, g: Generation, steps: seq<Step>)
    requires Linted(spec) && Sound(spec, limits, g) && Happens(spec, limits, g, steps)
    ensures Sound(spec, limits, Final(spec, limits, g, steps))
    ensures Recorded(spec, Final(spec, limits, g, steps)) == Recorded(spec, g) + DecisionsMade(steps)
    decreases |steps|
  {
    if steps != [] {
      StepSound(spec, limits, g, steps[0]);
      StepCounts(spec, limits, g, steps[0]);
      DecisionsRecorded(spec, limits, Apply(spec, limits, g, steps[0]), steps[1..]);
    }
  }

  lemma AddedBound(total: nat, more: nat, sessions: nat, d: nat, s: nat, n: nat, r: nat)
    requires total <= d * (s * n) && more <= d * sessions && sessions <= s + r
    ensures total + more <= d * (s * (n + 1) + r)
  {
  }

  lemma {:induction false} FirstDecisionsBounded(spec: Spec, limits: Limits, g: Generation, n: nat)
    requires Sound(spec, limits, g) && n < Places(spec, g)
    ensures DecisionsTo(spec, g, n) <= limits.decisions * (limits.sessions * n)
  {
    if n > 0 {
      FirstDecisionsBounded(spec, limits, g, n - 1);
      AddedBound(DecisionsTo(spec, g, n - 1), At(spec, g, n - 1).decisions, At(spec, g, n - 1).sessions,
        limits.decisions, limits.sessions, n - 1, 0);
    }
  }

  lemma DecisionsBounded(spec: Spec, limits: Limits, g: Generation)
    requires Sound(spec, limits, g)
    ensures Recorded(spec, g) <= limits.decisions * (limits.sessions * Places(spec, g) + g.repairs)
  {
    var last := Places(spec, g) - 1;
    FirstDecisionsBounded(spec, limits, g, last);
    AddedBound(DecisionsTo(spec, g, last), At(spec, g, last).decisions, At(spec, g, last).sessions,
      limits.decisions, limits.sessions, last, g.repairs);
  }

  lemma ProductGrows(d: nat, s: nat, n: nat, m: nat, r: nat, t: nat)
    requires n <= m && r <= t
    ensures d * (s * n + r) <= d * (s * m + t)
  {
  }

  /** While every process works from the file its predecessor left, however often the run is stopped and
      resumed, the decisions it makes are bounded by its configuration and the size of its first plan. */
  lemma LifetimeDecisions(spec: Spec, limits: Limits, steps: seq<Step>)
    requires Linted(spec) && Happens(spec, limits, NewGeneration(spec), steps)
    ensures DecisionsMade(steps) <=
      limits.decisions * (limits.sessions * (Size(spec, 0) + limits.followUps) + limits.repairs)
  {
    NewSound(spec, limits);
    DecisionsRecorded(spec, limits, NewGeneration(spec), steps);
    var g := Final(spec, limits, NewGeneration(spec), steps);
    NothingRecorded(spec, Places(spec, NewGeneration(spec)));
    DecisionsBounded(spec, limits, g);
    ProductGrows(limits.decisions, limits.sessions, Places(spec, g), Size(spec, 0) + limits.followUps,
      g.repairs, limits.repairs);
  }

  lemma {:induction false} NothingRecorded(spec: Spec, n: nat)
    requires Covers(spec, NewGeneration(spec)) && n <= Size(spec, 0)
    ensures DecisionsTo(spec, NewGeneration(spec), n) == 0
  {
    if n > 0 { NothingRecorded(spec, n - 1); }
  }

  // ------------------------------------------------------------------ what success means

  /** The requirement ids claimed for each task of the plan, in plan order. */
  ghost function Claimed(spec: Spec, g: Generation): seq<seq<string>>
    requires Covers(spec, g)
  {
    seq(Places(spec, g), i requires 0 <= i < Places(spec, g) => Ids(At(spec, g, i).claims))
  }

  lemma PrimaryUnique(spec: Spec, k: nat, i: nat)
    requires Linted(spec) && i < Size(spec, k)
    ensures Unique(PrimaryAt(spec, k, i))
  {
    BatchCountBounds(|spec.requirements|);
  }

  lemma PassedTaskClaims(spec: Spec, limits: Limits, g: Generation, i: nat)
    requires Linted(spec) && Sound(spec, limits, g) && i < Places(spec, g) && At(spec, g, i).status == Passed
    ensures multiset(Ids(At(spec, g, i).claims)) == multiset(PrimaryAt(spec, g.followUps, i))
  {
    assert Honest(TaskAt(spec, g.followUps, i), At(spec, g, i));
    PrimaryUnique(spec, g.followUps, i);
    ValidClaimsCoverOnceIff(TaskAt(spec, g.followUps, i), At(spec, g, i).claims);
  }

  /** Rearranging each part rearranges the whole. */
  lemma {:induction false} ConcatRearranged(xs: seq<seq<string>>, ys: seq<seq<string>>)
    requires |xs| == |ys| && forall i | 0 <= i < |xs| :: multiset(xs[i]) == multiset(ys[i])
    ensures multiset(Concat(xs)) == multiset(Concat(ys))
    decreases |xs|
  {
    if |xs| > 0 {
      var n := |xs| - 1;
      ConcatRearranged(xs[..n], ys[..n]);
      assert multiset(Concat(xs[..n]) + xs[n]) == multiset(Concat(ys[..n]) + ys[n]);
    }
  }

  /** A sound run that succeeded passed its whole plan, delivered what passed the final checks, and its
      tasks' claims name every requirement exactly once. */
  lemma SuccessMeans(spec: Spec, limits: Limits, g: Generation)
    requires Linted(spec) && Sound(spec, limits, g) && g.succeeded
    ensures AllPassed(spec, g) && g.delivered && g.checks == Some(true)
    ensures multiset(Concat(Claimed(spec, g))) == multiset(spec.requirements)
  {
    var primaries := Primaries(PlanOf(spec, g.followUps));
    forall i | 0 <= i < Places(spec, g)
      ensures multiset(Claimed(spec, g)[i]) == multiset(primaries[i])
    {
      PassedTaskClaims(spec, limits, g, i);
      PlanElement(spec, g.followUps, i);
    }
    ConcatRearranged(Claimed(spec, g), primaries);
    RequirementsPartitioned(spec, g.followUps);
  }

  /** The tasks a sound run has passed are a prefix of the plan. */
  lemma PassedArePrefix(spec: Spec, limits: Limits, g: Generation) returns (n: nat)
    requires Sound(spec, limits, g)
    ensures n <= Places(spec, g)
    ensures forall i | 0 <= i < Places(spec, g) :: At(spec, g, i).status == Passed <==> i < n
  {
    n := 0;
    while n < Places(spec, g) && At(spec, g, n).status == Passed
      invariant n <= Places(spec, g) && PassedBefore(spec, g, n)
    {
      n := n + 1;
    }
  }
}
