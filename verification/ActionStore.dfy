/** The action protocol as a process carries it out: it updates its own copy of run.json in place
    and saves it; every method is one event of the protocol's state machine. */
module ActionStore {
  import opened Outcomes
  import opened BudgetLedger
  import opened Plan
  import opened Checkpoints

  class RunDirectory {
    var saved: Record
    var project: Tree

    constructor (saved: Record, project: Tree)
      ensures this.saved == saved && this.project == project
    {
      this.saved := saved;
      this.project := project;
    }
  }

  class GitCheckpoints {
    const directory: RunDirectory
    var commits: seq<Tree>

    constructor (directory: RunDirectory)
      ensures this.directory == directory && commits == []
    {
      this.directory := directory;
      this.commits := [];
    }

    /** Records the whole project as it stands, even when nothing changed. */
    method Commit() returns (checkpoint: nat)
      modifies this
      ensures checkpoint == |old(commits)| && commits == old(commits) + [directory.project]
    {
      checkpoint := |commits|;
      commits := commits + [directory.project];
    }

    method Restore(checkpoint: nat)
      requires checkpoint < |commits|
      modifies directory`project
      ensures directory.project == Restored(old(directory.project), commits[checkpoint])
    {
      directory.project := directory.project + commits[checkpoint];
    }
  }

  class Store {
    const directory: RunDirectory
    const git: GitCheckpoints
    var run: Record

    ghost predicate Valid()
      reads this, git
    {
      git.directory == directory && run.accepted < |git.commits|
    }

    /** The state of the protocol while this process is at work. */
    ghost function Now(): World
      reads this, directory, git
    {
      World(directory.saved, directory.project, git.commits, true, {})
    }

    /** The state before this process takes the lock, its own copy read. */
    ghost function Waiting(): World
      reads this, directory, git
    {
      World(directory.saved, directory.project, git.commits, false, {run})
    }

    /** Reads run.json; taking the run's lock comes later. */
    constructor (directory: RunDirectory, git: GitCheckpoints)
      requires git.directory == directory && directory.saved.accepted < |git.commits|
      ensures Valid() && this.directory == directory && this.git == git && run == directory.saved
    {
      this.directory := directory;
      this.git := git;
      this.run := directory.saved;
    }

    method Save()
      modifies directory`saved
      ensures directory.saved == run
    {
      directory.saved := run;
    }

    /** Announces an action before any of its effects, unless the project changed unannounced. */
    method Begin(id: string) returns (r: Result<string, RecoverError>)
      requires Valid() && run == directory.saved
      modifies this`run, directory`saved
      ensures Valid() && run == directory.saved
      ensures r.Err? <==> directory.project != old(run).working
      ensures r.Err? ==> Now() == old(Now())
      ensures r.Ok? ==> directory.saved == old(run).(pending := Some(id)) && directory.project == old(directory.project)
      ensures r.Ok? && old(run).pending.None? && old(run).current.Some? ==>
        old(Enabled(Now(), StartAction(id))) && Now() == old(Apply(Now(), StartAction(id)))
    {
      if directory.project != run.working {
        return Err(UnrecordedChanges);
      }
      run := run.(pending := Some(id));
      Save();
      return Ok(id);
    }

    /** Records the project an announced action left. */
    method Finish()
      requires Valid() && run == directory.saved
      modifies this`run, directory`saved
      ensures Valid() && run == directory.saved == old(run).(pending := None, working := directory.project)
      ensures old(run).pending.Some? ==> old(Enabled(Now(), FinishAction)) && Now() == old(Apply(Now(), FinishAction))
    {
      run := run.(pending := None);
      run := run.(working := directory.project);
      Save();
    }

    /** An exception interrupts the end of an action after `cut` updates, and the handler saves. */
    method FinishCut(cut: nat)
      requires Valid() && run == directory.saved && cut <= 2
      modifies this`run, directory`saved
      ensures Valid() && run == directory.saved == FinishUpdates(old(run), cut, directory.project)
      ensures run == old(run).(pending := if cut == 0 then old(run).pending else None,
                               working := if cut <= 1 then old(run).working else directory.project)
      ensures old(run).pending.Some? ==>
        old(Enabled(Now(), FinishInterrupted(cut))) && Now().(alive := false) == old(Apply(Now(), FinishInterrupted(cut)))
    {
      if cut > 0 {
        run := run.(pending := None);
      }
      if cut > 1 {
        run := run.(working := directory.project);
      }
      Save();
    }

    /** Commits the project, then records the task as passed at that commit. */
    method Pass(task: TaskId)
      requires Valid() && run == directory.saved && task in run.tasks
      modifies this`run, directory`saved, git
      ensures Valid() && run == directory.saved
      ensures directory.saved == old(run).(
        tasks := old(run).tasks[task := Passed], accepted := |old(git.commits)|, working := directory.project,
        current := None, pending := None)
      ensures git.commits == old(git.commits) + [directory.project]
      ensures old(run).pending.None? && old(run).current == Some(task) && old(run).tasks[task] == Running ==>
        old(Enabled(Now(), Accept(task))) && Now() == old(Apply(Now(), Accept(task)))
    {
      var checkpoint := git.Commit();
      run := run.(tasks := run.tasks[task := Passed]);
      run := run.(accepted := checkpoint);
      run := run.(working := directory.project);
      run := run.(current := None);
      run := run.(pending := None);
      Save();
    }

    /** Called by a process that just took the lock, on the copy it read before: refuses unexplained
        changes, else puts an interrupted project back and forgets the pending action. Whatever it
        decides, the caller saves the copy next. */
    method RecoverRun() returns (r: Result<(), RecoverError>)
      requires Valid()
      modifies this`run, directory
      ensures Valid()
      ensures r.Err? ==> run == old(run) && directory.saved == old(directory.saved) && directory.project == old(directory.project)
      ensures r.Ok? <==> old(directory.project) == old(run).working || old(run).pending.Some?
      ensures r.Ok? && (old(run).current.Some? || old(run).pending.Some?) ==>
        && directory.project == git.commits[old(run).accepted]
        && run == old(run).(working := git.commits[old(run).accepted], pending := None) && directory.saved == run
      ensures r.Ok? && old(run).current.None? && old(run).pending.None? ==>
        run == old(run) && directory.project == old(directory.project) && directory.saved == old(directory.saved)
      ensures r.Ok? <==> old(Recovered(run, directory.project, git.commits)).Ok?
      ensures r.Ok? ==> (run, directory.project) == old(Recovered(run, directory.project, git.commits)).value
      ensures r.Ok? ==> directory.saved == if NeedsRestore(old(run)) then run else old(directory.saved)
    {
      if directory.project != run.working && run.pending.None? {
        return Err(UnrecordedChanges);
      }
      if run.current.Some? || run.pending.Some? {
        directory.project := map[];
        git.Restore(run.accepted);
        run := run.(working := directory.project);
        run := run.(pending := None);
        Save();
      }
      return Ok(());
    }

    /** A resumption: recovery, then the save of the running or the refused status. */
    method Resume() returns (r: Result<(), RecoverError>)
      requires Valid()
      modifies this`run, directory
      ensures Valid() && run == directory.saved
      ensures r.Ok? <==> old(CanRecover(Waiting(), run))
      ensures r.Ok? ==> Now().(copies := {old(run)}) == old(Apply(Waiting(), Recover(run)))
      ensures r.Err? ==> Waiting() == old(Apply(Waiting(), Abandon(run)))
    {
      r := RecoverRun();
      Save();
    }
  }

  /** What run.json says after an action that was cut, or at whose end the process died. */
  function Left(record: Record, id: string, effects: Tree, cut: Option<nat>): Record
    requires cut.Some? ==> cut.value <= 2
  {
    if cut.Some? then FinishUpdates(ActionStarted(record, id), cut.value, effects) else ActionStarted(record, id)
  }

  /** A process announces an action and writes anything at all; it then dies, or an exception
      interrupts the action's end after `cut` updates. */
  method ActAndStop(dead: Store, id: string, effects: Tree, cut: Option<nat>)
    requires dead.Valid() && dead.run == dead.directory.saved && dead.run.working == dead.directory.project
    requires cut.Some? ==> cut.value <= 2
    modifies dead`run, dead.directory
    ensures dead.Valid() && dead.directory.saved == Left(old(dead.run), id, effects, cut)
    ensures dead.directory.project == effects
  {
    var began := dead.Begin(id);
    dead.directory.project := effects;
    if cut.Some? {
      dead.FinishCut(cut.value);
    }
  }

  lemma LeftRecovers(record: Record, id: string, effects: Tree, cut: Option<nat>, commits: seq<Tree>)
    requires record.current.Some? && record.accepted < |commits| && (cut.Some? ==> cut.value <= 2)
    ensures var left := Left(record, id, effects, cut);
      && (Recovered(left, effects, commits).Ok? <==> (cut == Some(1) ==> effects == record.working))
      && (Recovered(left, effects, commits).Ok? ==>
            Recovered(left, effects, commits).value ==
              (record.(working := commits[record.accepted], pending := None), commits[record.accepted]))
  {
    RestoredIsCheckpointIff(map[], commits[record.accepted]);
  }

  /** The process that comes after brings the project back to the checkpoint and keeps task statuses
      and budget, unless the interruption hit between the two updates of an action that changed
      something. */
  method CrashAndRecover(dead: Store, id: string, effects: Tree, cut: Option<nat>) returns (next: Store, r: Result<(), RecoverError>)
    requires dead.Valid() && dead.run == dead.directory.saved && dead.run.current.Some?
    requires AllSane(dead.Now()) && dead.run.pending.None? && (cut.Some? ==> cut.value <= 2)
    modifies dead, dead.directory
    ensures next.Valid() && next.directory == dead.directory
    ensures r.Ok? <==> (cut == Some(1) ==> effects == old(dead.run.working))
    ensures r.Ok? ==>
      && AtCheckpoint(next.Now())
      && next.run.tasks == old(dead.run).tasks && next.run.budget == old(dead.run).budget
      && next.run.accepted == old(dead.run).accepted
  {
    ActAndStop(dead, id, effects, cut);
    LeftRecovers(old(dead.run), id, effects, cut, dead.git.commits);
    next := new Store(dead.directory, dead.git);
    r := next.Resume();
  }
}
