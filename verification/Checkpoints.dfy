/** The action protocol: run.json, the generated project tree and the git checkpoints. A process may
    die between any two writes; an exception may interrupt its updates of its copy of run.json, which
    the orchestrator's handler then saves; and a process may work from a run.json read before it took
    the run's lock. */
module Checkpoints {
  import opened Outcomes
  import opened BudgetLedger
  import opened Plan

  /** File contents by path. tree_hashes is modelled by the tree itself: SHA-256 is taken to be
      injective, and neither it nor git records empty directories. */
  type Tree = map<string, string>

  /** The part of run.json the action protocol reads and writes. */
  datatype Record = Record(
    accepted: nat,
    working: Tree,
    pending: Option<string>,
    current: Option<TaskId>,
    tasks: map<TaskId, Status>,
    budget: Ledger)

  /** run.json, the project directory and the commits on disk, whether a process is at work, and the
      copies of run.json read by processes that have not taken the lock. Every save writes the whole
      record, so the copy of the process at work is what is on disk. */
  datatype World = World(disk: Record, project: Tree, commits: seq<Tree>, alive: bool, copies: set<Record>)

  /** The events that carry a number k are interrupted after k updates and saved by the handler; an
      interruption of anything else is the event or its absence, followed by Die. */
  datatype Event =
    | Open
    | StartSession(task: TaskId)
    | SessionInterrupted(task: TaskId, k: nat)
    | StartAction(id: string)
    | ToolWrites(tree: Tree)
    | ScheduleFollowUp(task: TaskId)
    | FinishAction
    | FinishInterrupted(k: nat)
    | Accept(task: TaskId)
    | AcceptInterrupted(task: TaskId, k: nat)
    | CommitThenDie
    | GiveUp(task: TaskId)
    | SaveBudget(budget: Ledger)
    | Die
    | Recover(copy: Record)
    | RecoverInterrupted(copy: Record, left: Tree, k: nat)
    | RecoverDied(copy: Record, left: Tree)
    | Abandon(copy: Record)

  // ------------------------------------------------------------------ single operations

  /** The first k of the two updates that start a session. */
  function SessionUpdates(record: Record, k: nat, task: TaskId): Record
    requires k <= 2
  {
    var record := if k < 1 then record else record.(tasks := record.tasks[task := Running]);
    if k < 2 then record else record.(current := Some(task))
  }

  function ActionStarted(record: Record, id: string): Record { record.(pending := Some(id)) }

  /** The first k of the two updates that finish an action. */
  function FinishUpdates(record: Record, k: nat, project: Tree): Record
    requires k <= 2
  {
    var record := if k < 1 then record else record.(pending := None);
    if k < 2 then record else record.(working := project)
  }

  function ActionFinished(record: Record, project: Tree): Record {
    record.(pending := None, working := project)
  }

  /** The first k of the five updates that follow an accepted task's commit. */
  function AcceptUpdates(record: Record, k: nat, task: TaskId, checkpoint: nat, project: Tree): Record
    requires k <= 5
  {
    var record := if k < 1 then record else record.(tasks := record.tasks[task := Passed]);
    var record := if k < 2 then record else record.(accepted := checkpoint);
    var record := if k < 3 then record else record.(working := project);
    var record := if k < 4 then record else record.(current := None);
    if k < 5 then record else record.(pending := None)
  }

  function Accepted(record: Record, task: TaskId, checkpoint: nat, project: Tree): Record {
    record.(tasks := record.tasks[task := Passed], accepted := checkpoint, working := project,
            current := None, pending := None)
  }

  /** Which fields each number of updates has changed. */
  lemma UpdatesInOrder(record: Record, k: nat, task: TaskId, checkpoint: nat, project: Tree)
    ensures k <= 2 ==> SessionUpdates(record, k, task) == record.(
        tasks := if k >= 1 then record.tasks[task := Running] else record.tasks,
        current := if k >= 2 then Some(task) else record.current)
    ensures k <= 2 ==> FinishUpdates(record, k, project) == record.(
        pending := if k >= 1 then None else record.pending,
        working := if k >= 2 then project else record.working)
    ensures k <= 5 ==> AcceptUpdates(record, k, task, checkpoint, project) == record.(
        tasks := if k >= 1 then record.tasks[task := Passed] else record.tasks,
        accepted := if k >= 2 then checkpoint else record.accepted,
        working := if k >= 3 then project else record.working,
        current := if k >= 4 then None else record.current,
        pending := if k >= 5 then None else record.pending)
    ensures k <= 2 ==> RecoverUpdates(record, k, project) == record.(
        working := if k >= 1 then project else record.working,
        pending := if k >= 2 then None else record.pending)
  {
  }

  datatype RecoverError = UnrecordedChanges

  /** read-tree and checkout-index write the commit's files over what is there. */
  function Restored(project: Tree, commit: Tree): Tree { project + commit }

  /** A restored project is the checkpoint exactly when it had no other files, which is why recovery
      moves the old project away first. */
  lemma RestoredIsCheckpointIff(project: Tree, commit: Tree)
    ensures Restored(project, commit) == commit <==> project.Keys <= commit.Keys
  {
    assert Restored(project, commit).Keys == project.Keys + commit.Keys;
  }

  function NeedsRestore(record: Record): bool { record.current.Some? || record.pending.Some? }

  /** Refuse unexplained changes; put an interrupted project back to the accepted checkpoint. */
  function Recovered(record: Record, project: Tree, commits: seq<Tree>): Result<(Record, Tree), RecoverError>
    requires record.accepted < |commits|
  {
    if project != record.working && record.pending.None? then Err(UnrecordedChanges)
    else if NeedsRestore(record) then
      var tree := Restored(map[], commits[record.accepted]);
      Ok((record.(working := tree, pending := None), tree))
    else Ok((record, project))
  }

  /** The first k of the two updates of a recovery that restores. */
  function RecoverUpdates(record: Record, k: nat, tree: Tree): Record
    requires k <= 2
  {
    var record := if k < 1 then record else record.(working := tree);
    if k < 2 then record else record.(pending := None)
  }

  /** A process can take the lock on the copy and recover from it. */
  predicate CanRecover(w: World, copy: Record) {
    && !w.alive && copy in w.copies && copy.accepted < |w.commits|
    && Recovered(copy, w.project, w.commits).Ok?
  }

  predicate CanAccept(w: World, task: TaskId) {
    && w.alive && w.disk.pending.None? && w.disk.current == Some(task)
    && task in w.disk.tasks && w.disk.tasks[task] == Running
  }

  predicate Enabled(w: World, e: Event) {
    match e
    case Open => true
    case StartSession(_) => w.alive && w.disk.pending.None?
    case SessionInterrupted(_, k) => w.alive && w.disk.pending.None? && k <= 2
    case StartAction(_) => w.alive && w.disk.pending.None? && w.disk.current.Some? && w.project == w.disk.working
    case ToolWrites(_) => w.alive && w.disk.pending.Some?
    case ScheduleFollowUp(task) => w.alive && w.disk.pending.Some? && task !in w.disk.tasks
    case FinishAction => w.alive && w.disk.pending.Some?
    case FinishInterrupted(k) => w.alive && w.disk.pending.Some? && k <= 2
    case Accept(task) => CanAccept(w, task)
    case AcceptInterrupted(task, k) => CanAccept(w, task) && k <= 5
    case CommitThenDie => w.alive
    case GiveUp(_) => w.alive && w.disk.pending.None?
    case SaveBudget(_) => w.alive
    case Die => w.alive
    case Recover(copy) => CanRecover(w, copy)
    case RecoverInterrupted(copy, _, k) => CanRecover(w, copy) && NeedsRestore(copy) && k <= 2
    case RecoverDied(copy, _) => CanRecover(w, copy) && NeedsRestore(copy)
    case Abandon(copy) => !w.alive && copy in w.copies
  }

  function Apply(w: World, e: Event): World
    requires Enabled(w, e)
  {
    match e
    case Open => w.(copies := w.copies + {w.disk})
    case StartSession(task) => w.(disk := SessionUpdates(w.disk, 2, task))
    case SessionInterrupted(task, k) => w.(disk := SessionUpdates(w.disk, k, task), alive := false)
    case StartAction(id) => w.(disk := ActionStarted(w.disk, id))
    case ToolWrites(tree) => w.(project := tree)
    case ScheduleFollowUp(task) => w.(disk := w.disk.(tasks := w.disk.tasks[task := Waiting]))
    case FinishAction => w.(disk := ActionFinished(w.disk, w.project))
    case FinishInterrupted(k) => w.(disk := FinishUpdates(w.disk, k, w.project), alive := false)
    case Accept(task) =>
      w.(commits := w.commits + [w.project], disk := Accepted(w.disk, task, |w.commits|, w.project))
    case AcceptInterrupted(task, k) =>
      w.(commits := w.commits + [w.project], disk := AcceptUpdates(w.disk, k, task, |w.commits|, w.project), alive := false)
    case CommitThenDie => w.(commits := w.commits + [w.project], alive := false)
    case GiveUp(task) => w.(disk := w.disk.(tasks := w.disk.tasks[task := GaveUp]))
    case SaveBudget(budget) => w.(disk := w.disk.(budget := budget))
    case Die => w.(alive := false)
    case Recover(copy) =>
      var (record, tree) := Recovered(copy, w.project, w.commits).value;
      w.(disk := record, project := tree, alive := true)
    case RecoverInterrupted(copy, left, k) =>
      var tree := Restored(map[], w.commits[copy.accepted]);
      w.(disk := RecoverUpdates(copy, k, tree), project := if k == 0 then left else tree)
    case RecoverDied(_, left) => w.(project := left)
    case Abandon(copy) => w.(disk := copy)
  }

  /** What each event leaves, field by field: which events commit, which leave a process at work, and what is then in the
      project and in each field of run.json. */
  lemma Effects(w: World, e: Event)
    requires Enabled(w, e)
    ensures var w' := Apply(w, e);
      && w'.copies == w.copies + (if e.Open? then {w.disk} else {})
      && w'.commits == w.commits + (if e.Accept? || e.AcceptInterrupted? || e.CommitThenDie? then [w.project] else [])
      && (w'.alive <==>
            || e.Recover?
            || (w.alive && !e.Die? && !e.CommitThenDie? && !e.SessionInterrupted? && !e.FinishInterrupted? && !e.AcceptInterrupted?))
      && w'.project == (
           if e.ToolWrites? then e.tree
           else if e.RecoverDied? || (e.RecoverInterrupted? && e.k == 0) then e.left
           else if e.RecoverInterrupted? || (e.Recover? && (e.copy.current.Some? || e.copy.pending.Some?)) then w.commits[e.copy.accepted]
           else w.project)
  {
    if e.Recover? || e.RecoverInterrupted? { RestoredIsCheckpointIff(map[], w.commits[e.copy.accepted]); }
  }

  /** The fields of run.json after an event of the process at work. */
  lemma RecordEffects(w: World, e: Event)
    requires Enabled(w, e) && !e.Recover? && !e.RecoverInterrupted? && !e.RecoverDied? && !e.Abandon?
    ensures var r, r' := w.disk, Apply(w, e).disk;
      && r'.budget == (if e.SaveBudget? then e.budget else r.budget)
      && r'.tasks == (
           if e.StartSession? || (e.SessionInterrupted? && e.k >= 1) then r.tasks[e.task := Running]
           else if e.ScheduleFollowUp? then r.tasks[e.task := Waiting]
           else if e.Accept? || (e.AcceptInterrupted? && e.k >= 1) then r.tasks[e.task := Passed]
           else if e.GiveUp? then r.tasks[e.task := GaveUp]
           else r.tasks)
      && r'.current == (
           if e.StartSession? || (e.SessionInterrupted? && e.k >= 2) then Some(e.task)
           else if e.Accept? || (e.AcceptInterrupted? && e.k >= 4) then None
           else r.current)
      && r'.pending == (
           if e.StartAction? then Some(e.id)
           else if e.FinishAction? || (e.FinishInterrupted? && e.k >= 1) then None
           else r.pending)
      && r'.accepted == (if e.Accept? || (e.AcceptInterrupted? && e.k >= 2) then |w.commits| else r.accepted)
      && r'.working == (
           if e.FinishAction? || (e.FinishInterrupted? && e.k >= 2) || e.Accept? || (e.AcceptInterrupted? && e.k >= 3) then w.project
           else r.working)
  {
  }

  /** The fields of run.json after an event of a process that works from a copy it read. */
  lemma CopyEffects(w: World, e: Event)
    requires Enabled(w, e) && (e.Recover? || e.RecoverInterrupted? || e.RecoverDied? || e.Abandon?)
    ensures var r' := Apply(w, e).disk;
      if e.RecoverDied? then r' == w.disk
      else
        var restored := !e.Abandon? && (e.copy.current.Some? || e.copy.pending.Some?);
        && r'.budget == e.copy.budget && r'.tasks == e.copy.tasks && r'.current == e.copy.current && r'.accepted == e.copy.accepted
        && r'.working == (if restored && (e.Recover? || e.k >= 1) then w.commits[e.copy.accepted] else e.copy.working)
        && r'.pending == (if restored && (e.Recover? || e.k >= 2) then None else e.copy.pending)
  {
    if !e.Abandon? { RestoredIsCheckpointIff(map[], w.commits[e.copy.accepted]); }
  }

  ghost predicate Happens(w: World, evs: seq<Event>)
    decreases |evs|
  {
    evs != [] ==> Enabled(w, evs[0]) && Happens(Apply(w, evs[0]), evs[1..])
  }

  ghost function Final(w: World, evs: seq<Event>): World
    requires Happens(w, evs)
    decreases |evs|
  {
    if evs == [] then w else Final(Apply(w, evs[0]), evs[1..])
  }

  /** A run as initialised: an empty project, committed once. */
  function NewWorld(tasks: map<TaskId, Status>, budget: Ledger): World {
    World(Record(0, map[], None, None, tasks, budget), map[], [map[]], true, {})
  }

  // ------------------------------------------------------------------ what every history keeps

  predicate Sane(record: Record, commits: seq<Tree>) {
    && record.accepted < |commits|
    && (record.pending.Some? ==> record.current.Some?)
    && (!NeedsRestore(record) ==> record.working == commits[record.accepted])
  }

  /** A process that reads run.json now may recover from it; one at work has an explained project. */
  predicate Recoverable(w: World) { w.disk.pending.Some? || w.project == w.disk.working }

  predicate AllSane(w: World) {
    && Sane(w.disk, w.commits)
    && (forall copy | copy in w.copies :: Sane(copy, w.commits))
    && (w.alive ==> Recoverable(w))
  }

  predicate AtCheckpoint(w: World) {
    && w.disk.accepted < |w.commits|
    && w.project == w.disk.working == w.commits[w.disk.accepted]
  }

  lemma StepSane(w: World, e: Event)
    requires AllSane(w) && Enabled(w, e)
    ensures AllSane(Apply(w, e))
    ensures e.Recover? ==> AtCheckpoint(Apply(w, e))
  {
  }

  /** The guard of each event that can leave run.json and project unexplained: a finished action cut
      between its two updates unless nothing was written, a recovery cut before its first update or
      dead unless the tree it left is the recorded one or an action was pending, and a process that
      ends on a copy by which it could not have recovered. */
  predicate KeepsRecovery(w: World, e: Event) {
    match e
    case FinishInterrupted(k) => k != 1 || w.project == w.disk.working
    case RecoverInterrupted(copy, left, k) => k > 0 || copy.pending.Some? || left == copy.working
    case RecoverDied(_, left) => w.disk.pending.Some? || left == w.disk.working
    case Abandon(copy) => copy.pending.Some? || w.project == copy.working
    case _ => true
  }

  /** Every other event keeps recovery possible, and these do exactly under their guards. */
  lemma StepRecoverableIff(w: World, e: Event)
    requires AllSane(w) && Recoverable(w) && Enabled(w, e)
    ensures AllSane(Apply(w, e))
    ensures Recoverable(Apply(w, e)) <==> KeepsRecovery(w, e)
  {
    StepSane(w, e);
  }

  ghost predicate Steady(w: World, evs: seq<Event>)
    requires Happens(w, evs)
    decreases |evs|
  {
    evs != [] ==> KeepsRecovery(w, evs[0]) && Steady(Apply(w, evs[0]), evs[1..])
  }

  lemma {:induction false} SaneAlways(w: World, evs: seq<Event>)
    requires AllSane(w) && Happens(w, evs)
    ensures AllSane(Final(w, evs))
    ensures Recoverable(w) && Steady(w, evs) ==> Recoverable(Final(w, evs))
    decreases |evs|
  {
    if evs != [] {
      StepSane(w, evs[0]);
      if Recoverable(w) { StepRecoverableIff(w, evs[0]); }
      SaneAlways(Apply(w, evs[0]), evs[1..]);
    }
  }

  /** Wherever the process died or was interrupted, as long as every event met its guard, a process
      that reads run.json then can recover; it leaves the project and the recorded hashes at the
      accepted checkpoint and changes neither task statuses, nor the budget, nor what is accepted. */
  lemma RecoveryRestoresCheckpoint(tasks: map<TaskId, Status>, budget: Ledger, evs: seq<Event>)
    requires Happens(NewWorld(tasks, budget), evs) && Steady(NewWorld(tasks, budget), evs)
    requires !Final(NewWorld(tasks, budget), evs).alive
    ensures var w := Apply(Final(NewWorld(tasks, budget), evs), Open);
      && Enabled(w, Recover(w.disk))
      && var w' := Apply(w, Recover(w.disk));
        && AtCheckpoint(w')
        && w'.disk.pending == None
        && w'.disk.tasks == w.disk.tasks && w'.disk.budget == w.disk.budget
        && w'.disk.accepted == w.disk.accepted && w'.commits == w.commits
  {
    SaneAlways(NewWorld(tasks, budget), evs);
    var w := Apply(Final(NewWorld(tasks, budget), evs), Open);
    StepSane(Final(NewWorld(tasks, budget), evs), Open);
    StepSane(w, Recover(w.disk));
  }

  /** A recovery that died half way, or was interrupted there, can be repeated exactly when an action
      was pending or the tree it left happens to be the recorded one. */
  lemma HalfRecoveryRepeatableIff(w: World, left: Tree)
    requires AllSane(w) && Enabled(w, RecoverDied(w.disk, left))
    ensures var died := Apply(Apply(w, RecoverDied(w.disk, left)), Open);
      CanRecover(died, died.disk) <==> w.disk.pending.Some? || left == w.disk.working
    ensures Apply(w, RecoverInterrupted(w.disk, left, 0)) == Apply(w, RecoverDied(w.disk, left))
  {
  }

  // ------------------------------------------------------------------ refused for good

  /** Every process reads run.json after the last save. */
  ghost predicate FreshCopies(w: World, evs: seq<Event>)
    requires Happens(w, evs)
    decreases |evs|
  {
    evs != [] ==>
      var e := evs[0];
      && (e.Recover? || e.RecoverInterrupted? || e.RecoverDied? || e.Abandon? ==> e.copy == w.disk)
      && FreshCopies(Apply(w, e), evs[1..])
  }

  /** Once an event failed its guard, every process that reads run.json from then on is refused, and
      nothing changes any more. */
  lemma {:induction false} RefusedForGood(w: World, evs: seq<Event>)
    requires !w.alive && !Recoverable(w) && Happens(w, evs) && FreshCopies(w, evs)
    ensures forall e | e in evs :: !e.Recover?
    ensures var w' := Final(w, evs); !w'.alive && w'.disk == w.disk && w'.project == w.project
    decreases |evs|
  {
    if evs != [] {
      assert evs == [evs[0]] + evs[1..];
      RefusedForGood(Apply(w, evs[0]), evs[1..]);
    }
  }

  // ------------------------------------------------------------------ refinement

  /** The crash-free view: the last accepted tree and the tasks passed. */
  datatype View = View(tree: Tree, passed: set<TaskId>)

  function PassedIn(record: Record): set<TaskId> { set t | t in record.tasks && record.tasks[t] == Passed }

  function ViewOf(w: World): View
    requires w.disk.accepted < |w.commits|
  {
    View(w.commits[w.disk.accepted], PassedIn(w.disk))
  }

  /** What one event means for that view: acceptance takes the project as it stands, a new session
      or a surrender withdraws the task's pass, and nothing else shows. An interrupted operation
      counts from its first update on. */
  function Meaning(v: View, project: Tree, e: Event): View {
    match e
    case Accept(task) => View(project, v.passed + {task})
    case AcceptInterrupted(task, k) => if k == 0 then v else View(project, v.passed + {task})
    case StartSession(task) => v.(passed := v.passed - {task})
    case SessionInterrupted(task, k) => if k == 0 then v else v.(passed := v.passed - {task})
    case GiveUp(task) => v.(passed := v.passed - {task})
    case _ => v
  }

  /** The copy accepts the same tree and the same tasks as run.json does now. */
  predicate SameAcceptance(w: World, copy: Record) {
    && w.disk.accepted < |w.commits| && copy.accepted < |w.commits|
    && w.commits[copy.accepted] == w.commits[w.disk.accepted] && PassedIn(copy) == PassedIn(w.disk)
  }

  /** The guard of each event that can tear the view: an acceptance cut between the task's status and
      the checkpoint, unless the checkpoint has the same tree, and a save of an old copy. */
  predicate KeepsView(w: World, e: Event) {
    match e
    case AcceptInterrupted(_, k) => k != 1 || (w.disk.accepted < |w.commits| && w.project == w.commits[w.disk.accepted])
    case Recover(copy) => SameAcceptance(w, copy)
    case RecoverInterrupted(copy, _, _) => SameAcceptance(w, copy)
    case Abandon(copy) => SameAcceptance(w, copy)
    case _ => true
  }

  lemma StepRefinesIff(w: World, e: Event)
    requires AllSane(w) && Enabled(w, e)
    ensures AllSane(Apply(w, e))
    ensures ViewOf(Apply(w, e)) == Meaning(ViewOf(w), w.project, e) <==> KeepsView(w, e)
  {
    StepSane(w, e);
  }

  /** An acceptance cut short is neither done nor undone exactly when it fails its guard. */
  lemma TornAcceptanceIff(w: World, task: TaskId, k: nat)
    requires AllSane(w) && Enabled(w, AcceptInterrupted(task, k))
    ensures var v, v' := ViewOf(w), ViewOf(Apply(w, AcceptInterrupted(task, k)));
      v' == v || v' == Meaning(v, w.project, Accept(task)) <==> KeepsView(w, AcceptInterrupted(task, k))
  {
    var w' := Apply(w, AcceptInterrupted(task, k));
    assert task !in PassedIn(w.disk) && (k > 0 ==> task in PassedIn(w'.disk));
    if k > 0 { assert PassedIn(w'.disk) == PassedIn(w.disk) + {task}; }
  }

  predicate Shows(e: Event) {
    e.Accept? || e.AcceptInterrupted? || e.StartSession? || e.SessionInterrupted? || e.GiveUp?
  }

  /** The visible events of a history, each with the project it saw: crashes, recoveries,
      unfinished actions and lost commits leave no trace. */
  ghost function Visible(w: World, evs: seq<Event>): seq<(Tree, Event)>
    requires Happens(w, evs)
    decreases |evs|
  {
    if evs == [] then []
    else
      var rest := Visible(Apply(w, evs[0]), evs[1..]);
      if Shows(evs[0]) then [(w.project, evs[0])] + rest else rest
  }

  function Replay(v: View, steps: seq<(Tree, Event)>): View
    decreases |steps|
  {
    if steps == [] then v else Replay(Meaning(v, steps[0].0, steps[0].1), steps[1..])
  }

  ghost predicate Faithful(w: World, evs: seq<Event>)
    requires Happens(w, evs)
    decreases |evs|
  {
    evs != [] ==> KeepsView(w, evs[0]) && Faithful(Apply(w, evs[0]), evs[1..])
  }

  /** A run that dies, is interrupted and recovers any number of times has the view of the crash-free
      run that makes only its visible steps, as long as every event met its guard. */
  lemma {:induction false} CrashingRunRefines(w: World, evs: seq<Event>)
    requires AllSane(w) && Happens(w, evs) && Faithful(w, evs)
    ensures AllSane(Final(w, evs))
    ensures ViewOf(Final(w, evs)) == Replay(ViewOf(w), Visible(w, evs))
    decreases |evs|
  {
    if evs != [] {
      var e, rest := evs[0], Visible(Apply(w, evs[0]), evs[1..]);
      StepRefinesIff(w, e);
      CrashingRunRefines(Apply(w, e), evs[1..]);
      if Shows(e) {
        assert Visible(w, evs)[1..] == rest;
      }
    }
  }

  // ------------------------------------------------------------------ histories that fail

  const NEW := NewWorld(map[Bootstrap := Waiting], EMPTY_LEDGER)
  const WRITTEN: Tree := map["main.c" := "int main(void);"]

  lemma {:induction false} HappensThen(w: World, evs: seq<Event>, e: Event)
    requires Happens(w, evs) && Enabled(Final(w, evs), e)
    ensures Happens(w, evs + [e]) && Final(w, evs + [e]) == Apply(Final(w, evs), e)
    decreases |evs|
  {
    if evs == [] {
      assert [e][1..] == [];
    } else {
      HappensThen(Apply(w, evs[0]), evs[1..], e);
      assert (evs + [e])[1..] == evs[1..] + [e];
    }
  }

  /** A history of the example run that ends in w, extended by one event. */
  lemma Then(evs: seq<Event>, w: World, e: Event) returns (more: seq<Event>, w': World)
    requires Happens(NEW, evs) && Final(NEW, evs) == w && Enabled(w, e)
    ensures more == evs + [e] && w' == Apply(w, e)
    ensures Happens(NEW, more) && Final(NEW, more) == w'
  {
    more, w' := evs + [e], Apply(w, e);
    HappensThen(NEW, evs, e);
  }

  /** A process starts the first task, announces an action and writes a file; two others have read
      run.json before and after the announcement. */
  lemma FileWritten() returns (evs: seq<Event>, w: World, early: Record, late: Record)
    ensures Happens(NEW, evs) && Final(NEW, evs) == w
    ensures w.alive && w.project == WRITTEN && w.commits == [map[]] && {early, late} <= w.copies
    ensures early == Record(0, map[], None, Some(Bootstrap), map[Bootstrap := Running], EMPTY_LEDGER)
    ensures w.disk == late == early.(pending := Some("a"))
  {
    evs, w := Then([], NEW, StartSession(Bootstrap));
    early := w.disk;
    assert early.tasks == map[Bootstrap := Running];
    evs, w := Then(evs, w, Open);
    evs, w := Then(evs, w, StartAction("a"));
    late := w.disk;
    evs, w := Then(evs, w, Open);
    evs, w := Then(evs, w, ToolWrites(WRITTEN));
  }

  /** An action's end interrupted between its two updates: every process that reads run.json from
      then on is refused. */
  lemma InterruptedFinishStuck() returns (evs: seq<Event>, w: World)
    ensures Happens(NEW, evs) && Final(NEW, evs) == w && !w.alive && !Recoverable(w)
  {
    var early, late;
    evs, w, early, late := FileWritten();
    evs, w := Then(evs, w, FinishInterrupted(1));
    assert "main.c" in w.project && "main.c" !in w.disk.working;
  }

  /** An acceptance interrupted after the status was set: recovery throws the accepted files away and
      leaves the task passed. */
  lemma InterruptedAcceptLosesFiles() returns (evs: seq<Event>, w: World)
    ensures Happens(NEW, evs) && Final(NEW, evs) == w && w.alive
    ensures w.commits == [map[], WRITTEN] && w.disk.accepted == 0
    ensures Bootstrap in ViewOf(w).passed && w.project == ViewOf(w).tree == map[]
  {
    var early, late;
    evs, w, early, late := FileWritten();
    evs, w := Then(evs, w, FinishAction);
    evs, w := Then(evs, w, AcceptInterrupted(Bootstrap, 1));
    evs, w := Then(evs, w, Open);
    evs, w := Then(evs, w, Recover(w.disk));
  }

  /** The first task is accepted and the process ends; two copies of run.json are older. */
  lemma FirstAccepted() returns (evs: seq<Event>, w: World, early: Record, late: Record)
    ensures Happens(NEW, evs) && Final(NEW, evs) == w && !w.alive && {early, late} <= w.copies
    ensures w.project == WRITTEN == w.disk.working && w.commits == [map[], WRITTEN] && w.disk.accepted == 1
    ensures w.disk.tasks == map[Bootstrap := Passed]
    ensures early == Record(0, map[], None, Some(Bootstrap), map[Bootstrap := Running], EMPTY_LEDGER)
    ensures late == early.(pending := Some("a"))
  {
    evs, w, early, late := FileWritten();
    evs, w := Then(evs, w, FinishAction);
    evs, w := Then(evs, w, Accept(Bootstrap));
    evs, w := Then(evs, w, Die);
  }

  /** A recovery from a run.json read before its lock undoes an acceptance. */
  lemma StaleRecoveryUndoesAcceptance() returns (evs: seq<Event>, w: World, copy: Record)
    ensures Happens(NEW, evs) && Final(NEW, evs) == w && w.commits == [map[], WRITTEN] && w.disk.accepted == 1
    ensures ViewOf(w) == View(WRITTEN, {Bootstrap})
    ensures Enabled(w, Recover(copy)) && Apply(w, Recover(copy)).disk.accepted == 0
    ensures ViewOf(Apply(w, Recover(copy))) == View(map[], {})
  {
    var early;
    evs, w, early, copy := FirstAccepted();
  }

  /** Refusing such a copy saves it all the same, and a process that reads run.json then is refused. */
  lemma StaleRefusalStuck() returns (evs: seq<Event>, w: World, copy: Record)
    ensures Happens(NEW, evs) && Final(NEW, evs) == w && Recoverable(w)
    ensures Enabled(w, Abandon(copy)) && !CanRecover(w, copy) && !Recoverable(Apply(w, Abandon(copy)))
  {
    var late;
    evs, w, copy, late := FirstAccepted();
    assert "main.c" in w.project && "main.c" !in copy.working;
  }

  /** A recovery that died half way, with nothing pending, is refused from then on. */
  lemma HalfRecoveryStuck() returns (evs: seq<Event>, w: World)
    ensures Happens(NEW, evs) && Final(NEW, evs) == w && !w.alive && !Recoverable(w)
    ensures w.commits == [map[]] && w.disk.accepted == 0 && w.project == w.commits[0]
  {
    var early, late;
    evs, w, early, late := FileWritten();
    evs, w := Then(evs, w, FinishAction);
    evs, w := Then(evs, w, Die);
    evs, w := Then(evs, w, Open);
    evs, w := Then(evs, w, RecoverDied(w.disk, w.commits[0]));
    assert "main.c" !in w.project && "main.c" in w.disk.working;
  }
}
