/** A run over many processes. A process reads run.json before it takes the run's lock, so it may work
    from a file it read long ago; and an interruption inside append_followup is saved by the handler of
    the process it ends. */
module Resumption {
  import opened Outcomes
  import opened Plan
  import opened Lifecycle
  import opened Spending

  /** What run.json holds: the tasks' entries and what steers them, with one entry for each of
      `run.followUps` follow-ups; the active plan, by its tasks' ids; and the counter of follow-ups. */
  datatype Record = Record(run: Generation, plan: seq<TaskId>, counted: nat)

  /** A run's directory: the record, which the process holding the lock keeps in step with what it does;
      the length of the longest plan ever written, since plan files are never removed; and every record
      a process has read. */
  datatype World = World(record: Record, longest: nat, held: bool, copies: set<Record>)

  /** A process reads the file; takes the lock and passes recovery with what it read; takes the lock and is
      refused, or cannot publish its report, which saves what it read; makes a step; adds a follow-up; is
      interrupted after k updates of that; or ends. A copy of a success is left as it is. */
  datatype Event =
    | Read
    | Lock(copy: Record)
    | Refuse(copy: Record)
    | Work(step: Step)
    | Append
    | Cut(k: nat)
    | Quit

  function PlanIds(plan: seq<Task>): seq<TaskId> {
    seq(|plan|, i requires 0 <= i < |plan| => plan[i].id)
  }

  function NewWorld(spec: Spec): World {
    World(Record(NewGeneration(spec), PlanIds(PlanOf(spec, 0)), 0), Size(spec, 0), false, {})
  }

  /** A follow-up's id goes in before the end. */
  function Grown(plan: seq<TaskId>, n: nat): seq<TaskId>
    requires |plan| >= 2
  {
    plan[..|plan| - 1] + [FollowUp(n), plan[|plan| - 1]]
  }

  /** So it does in the surgery on the plan itself. */
  lemma SurgeryGrows(plan: seq<Task>, n: nat)
    requires |plan| >= 2
    ensures |PlanIds(plan)| == |plan| && PlanIds(Relinked(Inserted(plan, n))) == Grown(PlanIds(plan), n)
  {
  }

  /** Every task of the active plan has its entry: the orchestrator looks each of them up. */
  predicate Listed(r: Record) {
    forall i | 0 <= i < |r.plan| :: r.plan[i] in r.run.tasks
  }

  /** The next follow-up's id already has an entry. */
  predicate Repeating(r: Record) { r.counted < r.run.followUps }

  function WithEntry(g: Generation, n: nat): Generation {
    g.(tasks := g.tasks[FollowUp(n) := UNTOUCHED], followUps := if n > g.followUps then n else g.followUps)
  }

  /** The first k of append_followup's updates, once its plan file is written: the active plan, the
      task's entry, the counter. */
  function AfterUpdates(r: Record, k: nat): Record
    requires |r.plan| >= 2
  {
    Record(
      if k >= 2 then WithEntry(r.run, r.counted + 1) else r.run,
      if k >= 1 then Grown(r.plan, r.counted + 1) else r.plan,
      if k >= 3 then r.counted + 1 else r.counted)
  }

  /** The follow-up is admitted, and its plan file does not exist yet. */
  predicate Appendable(spec: Spec, limits: Limits, w: World) {
    var g := w.record.run;
    && w.held && Listed(w.record) && |w.record.plan| >= 2
    && Covers(spec, g) && !g.succeeded && g.session.Some? && g.session.value.place < Places(spec, g) - 1
    && w.record.counted < limits.followUps
    && At(spec, g, g.session.value.place).sessions < limits.sessions
    && |w.record.plan| == w.longest
  }

  /** The session at work is on the very task whose entry is replaced. */
  predicate OwnEntry(spec: Spec, r: Record) {
    && r.run.session.Some? && r.run.session.value.place < Places(spec, r.run)
    && TaskOf(spec, r.run, r.run.session.value.place) == FollowUp(r.counted + 1)
  }

  predicate Allowed(spec: Spec, limits: Limits, w: World, e: Event) {
    match e
    case Read => true
    case Lock(copy) => !w.held && copy in w.copies && !copy.run.succeeded
    case Refuse(copy) => !w.held && copy in w.copies
    case Work(step) =>
      w.held && Listed(w.record) && !step.Schedule? && !step.Stop? && Enabled(spec, limits, w.record.run, step)
    case Append => Appendable(spec, limits, w)
    case Cut(k) => k <= 3 && Appendable(spec, limits, w)
    case Quit => w.held
  }

  function Rest(r: Record): Record { r.(run := Resting(r.run)) }

  function Next(spec: Spec, limits: Limits, w: World, e: Event): World
    requires Allowed(spec, limits, w, e)
  {
    match e
    case Read => w.(copies := w.copies + {Rest(w.record)})
    case Lock(copy) => w.(record := copy, held := true)
    case Refuse(copy) => w.(record := copy.(run := copy.run.(succeeded := false)))
    case Work(step) => w.(record := w.record.(run := Apply(spec, limits, w.record.run, step)))
    case Append =>
      var r := AfterUpdates(w.record, 3);
      if OwnEntry(spec, w.record) then w.(record := Rest(r), longest := w.longest + 1, held := false)
      else w.(record := r, longest := w.longest + 1)
    case Cut(k) => w.(record := Rest(AfterUpdates(w.record, k)), longest := w.longest + 1, held := false)
    case Quit => w.(record := Rest(w.record), held := false)
  }

  /** What each event leaves, field by field. */
  lemma Effects(spec: Spec, limits: Limits, w: World, e: Event)
    requires Allowed(spec, limits, w, e)
    ensures var w', own := Next(spec, limits, w, e), OwnEntry(spec, w.record);
      && w'.copies == w.copies + (if e.Read? then {w.record.(run := Resting(w.record.run))} else {})
      && w'.longest == w.longest + (if e.Append? || e.Cut? then 1 else 0)
      && (w'.held <==> e.Lock? || (w.held && !e.Quit? && !e.Cut? && !(e.Append? && own)))
      && w'.record.plan == (
           if e.Lock? || e.Refuse? then e.copy.plan
           else if e.Append? || (e.Cut? && e.k >= 1) then
             w.record.plan[..|w.record.plan| - 1] + [FollowUp(w.record.counted + 1), w.record.plan[|w.record.plan| - 1]]
           else w.record.plan)
      && w'.record.counted == (
           if e.Lock? || e.Refuse? then e.copy.counted
           else if e.Append? || (e.Cut? && e.k >= 3) then w.record.counted + 1
           else w.record.counted)
      && (e.Lock? ==> w'.record.run == e.copy.run)
      && (e.Refuse? ==> w'.record.run == e.copy.run.(succeeded := false))
      && (e.Work? ==> w'.record.run == Apply(spec, limits, w.record.run, e.step))
      && (e.Quit? || (e.Cut? && e.k <= 1) ==> w'.record.run == Resting(w.record.run))
      && (e.Append? || (e.Cut? && e.k >= 2) ==>
            w'.record.run.tasks == w.record.run.tasks[FollowUp(w.record.counted + 1) := UNTOUCHED])
  {
  }

  ghost predicate Occurs(spec: Spec, limits: Limits, w: World, events: seq<Event>)
    decreases |events|
  {
    events != [] ==>
      Allowed(spec, limits, w, events[0]) && Occurs(spec, limits, Next(spec, limits, w, events[0]), events[1..])
  }

  ghost function Last(spec: Spec, limits: Limits, w: World, events: seq<Event>): World
    requires Occurs(spec, limits, w, events)
    decreases |events|
  {
    if events == [] then w else Last(spec, limits, Next(spec, limits, w, events[0]), events[1..])
  }

  /** The decisions of a history: calls about to be paid for, whatever is later forgotten of them. */
  function Made(events: seq<Event>): nat
    decreases |events|
  {
    if events == [] then 0 else (if events[0] == Work(Decide) then 1 else 0) + Made(events[1..])
  }

  // ------------------------------------------------------------------ what every history keeps

  predicate SoundRecord(spec: Spec, limits: Limits, r: Record) {
    && Sound(spec, limits, r.run) && Orderly(spec, r.run)
    && r.counted <= r.run.followUps <= r.counted + 1
    && |r.plan| >= 2
  }

  predicate Steady(spec: Spec, limits: Limits, w: World) {
    && SoundRecord(spec, limits, w.record)
    && (!w.held ==> Rest(w.record) == w.record)
    && (forall r | r in w.copies :: SoundRecord(spec, limits, r) && Rest(r) == r)
  }

  lemma RestSound(spec: Spec, limits: Limits, r: Record)
    requires Linted(spec) && SoundRecord(spec, limits, r)
    ensures SoundRecord(spec, limits, Rest(r))
  {
    assert Enabled(spec, limits, r.run, Stop);
    StepOrderly(spec, limits, r.run, Stop);
  }

  /** An entry is replaced before its task has passed, and not under a session that goes on. */
  lemma ResetSound(spec: Spec, limits: Limits, g: Generation)
    requires Linted(spec) && Sound(spec, limits, g) && Orderly(spec, g) && g.followUps > 0
    requires At(spec, g, Places(spec, g) - 2).status != Passed
    requires g.session.Some? ==> g.session.value.place != Places(spec, g) - 2
    ensures Sound(spec, limits, WithEntry(g, g.followUps)) && Orderly(spec, WithEntry(g, g.followUps))
  {
    var g', place := WithEntry(g, g.followUps), Places(spec, g) - 2;
    assert TaskOf(spec, g, place) == FollowUp(g.followUps);
    Updated(spec, g, place, UNTOUCHED, g');
    forall i | 0 <= i <= Places(spec, g) ensures PassedBefore(spec, g', i) <==> PassedBefore(spec, g, i) {
      PassedPrefix(spec, g, g', i);
    }
  }

  lemma EntrySound(spec: Spec, limits: Limits, w: World)
    requires Linted(spec) && SoundRecord(spec, limits, w.record) && Appendable(spec, limits, w) && !OwnEntry(spec, w.record)
    ensures var g := WithEntry(w.record.run, w.record.counted + 1);
      Sound(spec, limits, g) && Orderly(spec, g) && g.followUps == w.record.counted + 1
  {
    var g := w.record.run;
    if Repeating(w.record) {
      assert TaskOf(spec, g, Places(spec, g) - 2) == FollowUp(g.followUps);
      assert At(spec, g, g.session.value.place).status != Passed;
      ResetSound(spec, limits, g);
    } else {
      StepOrderly(spec, limits, g, Schedule);
    }
  }

  /** What the interruption of append_followup leaves to be saved, after k of its updates. */
  lemma CutSound(spec: Spec, limits: Limits, w: World, k: nat)
    requires Linted(spec) && SoundRecord(spec, limits, w.record) && Appendable(spec, limits, w) && k <= 3
    ensures SoundRecord(spec, limits, Rest(AfterUpdates(w.record, k)))
  {
    var g, r := w.record.run, AfterUpdates(w.record, k);
    if k < 2 {
      RestSound(spec, limits, w.record);
    } else if OwnEntry(spec, w.record) {
      StepOrderly(spec, limits, g, Stop);
      Untouched(spec, g, Resting(g));
      ResetSound(spec, limits, Resting(g));
      assert Resting(WithEntry(g, g.followUps)) == WithEntry(Resting(g), g.followUps);
    } else {
      EntrySound(spec, limits, w);
      RestSound(spec, limits, Record(r.run, r.plan, g.followUps));
    }
  }

  lemma NextSound(spec: Spec, limits: Limits, w: World, e: Event)
    requires Linted(spec) && Steady(spec, limits, w) && Allowed(spec, limits, w, e)
    ensures SoundRecord(spec, limits, Next(spec, limits, w, e).record)
  {
    match e
    case Read =>
    case Lock(copy) =>
    case Refuse(copy) => RefusedSound(spec, limits, copy);
    case Work(step) => StepOrderly(spec, limits, w.record.run, step);
    case Append => AppendSound(spec, limits, w);
    case Cut(k) => CutSound(spec, limits, w, k);
    case Quit => RestSound(spec, limits, w.record);
  }

  lemma AppendSound(spec: Spec, limits: Limits, w: World)
    requires Linted(spec) && SoundRecord(spec, limits, w.record) && Appendable(spec, limits, w)
    ensures SoundRecord(spec, limits, Next(spec, limits, w, Append).record)
  {
    if OwnEntry(spec, w.record) { CutSound(spec, limits, w, 3); } else { EntrySound(spec, limits, w); }
  }

  lemma NextSteady(spec: Spec, limits: Limits, w: World, e: Event)
    requires Linted(spec) && Steady(spec, limits, w) && Allowed(spec, limits, w, e)
    ensures Steady(spec, limits, Next(spec, limits, w, e))
  {
    NextSound(spec, limits, w, e);
    var w' := Next(spec, limits, w, e);
    forall r | r in w'.copies ensures SoundRecord(spec, limits, r) && Rest(r) == r {
      if r !in w.copies { RestSound(spec, limits, w.record); }
    }
  }

  lemma RefusedSound(spec: Spec, limits: Limits, r: Record)
    requires Linted(spec) && SoundRecord(spec, limits, r)
    ensures SoundRecord(spec, limits, r.(run := r.run.(succeeded := false)))
  {
    if r.run.succeeded { StepOrderly(spec, limits, r.run, Withdraw); }
  }

  lemma NewSteady(spec: Spec, limits: Limits)
    ensures Steady(spec, limits, NewWorld(spec))
  {
    NewOrderly(spec, limits);
  }

  lemma {:induction false} AlwaysSteady(spec: Spec, limits: Limits, w: World, events: seq<Event>)
    requires Linted(spec) && Steady(spec, limits, w) && Occurs(spec, limits, w, events)
    ensures Steady(spec, limits, Last(spec, limits, w, events))
    decreases |events|
  {
    if events != [] {
      NextSteady(spec, limits, w, events[0]);
      AlwaysSteady(spec, limits, Next(spec, limits, w, events[0]), events[1..]);
    }
  }

  // ------------------------------------------------------------------ what is forgotten

  function EntryDecisions(g: Generation, id: TaskId): nat { if id in g.tasks then g.tasks[id].decisions else 0 }

  /** The recorded decisions an event removes from the record: negative where a copy records more. */
  ghost function Loses(spec: Spec, w: World, e: Event): int
    requires Covers(spec, w.record.run) && (e.Lock? || e.Refuse? ==> Covers(spec, e.copy.run))
  {
    match e
    case Lock(copy) => Recorded(spec, w.record.run) - Recorded(spec, copy.run)
    case Refuse(copy) => Recorded(spec, w.record.run) - Recorded(spec, copy.run)
    case Append => EntryDecisions(w.record.run, FollowUp(w.record.counted + 1))
    case Cut(k) => if k >= 2 then EntryDecisions(w.record.run, FollowUp(w.record.counted + 1)) else 0
    case _ => 0
  }

  ghost function Forgotten(spec: Spec, limits: Limits, w: World, events: seq<Event>): int
    requires Linted(spec) && Steady(spec, limits, w) && Occurs(spec, limits, w, events)
    decreases |events|
  {
    if events == [] then 0
    else
      NextSteady(spec, limits, w, events[0]);
      Loses(spec, w, events[0]) + Forgotten(spec, limits, Next(spec, limits, w, events[0]), events[1..])
  }

  lemma RestCounts(spec: Spec, g: Generation, g': Generation)
    requires Covers(spec, g) && g'.tasks == g.tasks && g'.followUps == g.followUps
    ensures Covers(spec, g') && Recorded(spec, g') == Recorded(spec, g)
  {
    Untouched(spec, g, g');
    RaisedAt(spec, g, g', 0, 0, Places(spec, g));
  }

  lemma EntryCounts(spec: Spec, limits: Limits, g: Generation, n: nat)
    requires Linted(spec) && Sound(spec, limits, g) && g.followUps <= n <= g.followUps + 1 && n > 0
    ensures Covers(spec, WithEntry(g, n))
    ensures Recorded(spec, WithEntry(g, n)) + EntryDecisions(g, FollowUp(n)) == Recorded(spec, g)
  {
    var g' := WithEntry(g, n);
    if n == g.followUps {
      var place := Places(spec, g) - 2;
      assert TaskOf(spec, g, place) == FollowUp(n);
      Updated(spec, g, place, UNTOUCHED, g');
      assert g.tasks == g'.tasks[FollowUp(n) := At(spec, g, place)];
      ChangeCounts(spec, g', place, At(spec, g, place), g, At(spec, g, place).decisions);
    } else {
      assert FollowUp(n) !in g.tasks;
      Scheduled(spec, g, g');
      RaisedAt(spec, g, g', 0, 0, Places(spec, g) - 1);
      assert DecisionsTo(spec, g', Places(spec, g)) == DecisionsTo(spec, g', Places(spec, g) - 1) + 0;
    }
  }

  lemma NextCounts(spec: Spec, limits: Limits, w: World, e: Event)
    requires Linted(spec) && Steady(spec, limits, w) && Allowed(spec, limits, w, e)
    ensures Covers(spec, Next(spec, limits, w, e).record.run)
    ensures Recorded(spec, Next(spec, limits, w, e).record.run) + Loses(spec, w, e) ==
      Recorded(spec, w.record.run) + if e == Work(Decide) then 1 else 0
  {
    var g, g' := w.record.run, Next(spec, limits, w, e).record.run;
    match e
    case Work(step) => StepCounts(spec, limits, g, step);
    case Refuse(copy) => RestCounts(spec, copy.run, g');
    case Append =>
      EntryCounts(spec, limits, g, w.record.counted + 1);
      RestCounts(spec, WithEntry(g, w.record.counted + 1), g');
    case Cut(k) =>
      if k >= 2 {
        EntryCounts(spec, limits, g, w.record.counted + 1);
        RestCounts(spec, WithEntry(g, w.record.counted + 1), g');
      } else {
        RestCounts(spec, g, g');
      }
    case Quit => RestCounts(spec, g, g');
    case _ =>
  }

  /** Every decision ever made is recorded or has been forgotten, by a lock on a file that records
      fewer or by a follow-up that replaces an entry. */
  lemma {:induction false} DecisionsAccounted(spec: Spec, limits: Limits, w: World, events: seq<Event>)
    requires Linted(spec) && Steady(spec, limits, w) && Occurs(spec, limits, w, events)
    ensures Steady(spec, limits, Last(spec, limits, w, events))
    ensures Recorded(spec, w.record.run) + Made(events) ==
      Recorded(spec, Last(spec, limits, w, events).record.run) + Forgotten(spec, limits, w, events)
    decreases |events|
  {
    if events != [] {
      NextSteady(spec, limits, w, events[0]);
      NextCounts(spec, limits, w, events[0]);
      DecisionsAccounted(spec, limits, Next(spec, limits, w, events[0]), events[1..]);
    }
  }

  lemma RecordedBound(spec: Spec, limits: Limits, g: Generation)
    requires Sound(spec, limits, g)
    ensures Recorded(spec, g) <= limits.decisions * (limits.sessions * (Size(spec, 0) + limits.followUps) + limits.repairs)
  {
    DecisionsBounded(spec, limits, g);
    ProductGrows(limits.decisions, limits.sessions, Places(spec, g), Size(spec, 0) + limits.followUps, g.repairs, limits.repairs);
  }

  /** Over any number of processes, the decisions a run ever makes stay within its configuration and
      the size of its first plan, beyond those its record was made to forget. */
  lemma DecisionsBoundedByForgetting(spec: Spec, limits: Limits, events: seq<Event>)
    requires Linted(spec) && Occurs(spec, limits, NewWorld(spec), events)
    ensures Steady(spec, limits, NewWorld(spec))
    ensures Made(events) <= Forgotten(spec, limits, NewWorld(spec), events) +
      limits.decisions * (limits.sessions * (Size(spec, 0) + limits.followUps) + limits.repairs)
  {
    NewSteady(spec, limits);
    DecisionsAccounted(spec, limits, NewWorld(spec), events);
    NothingRecorded(spec, Size(spec, 0));
    RecordedBound(spec, limits, Last(spec, limits, NewWorld(spec), events).record.run);
  }

  // ------------------------------------------------------------------ what a record lets happen

  /** The limits the holder of a record works under: it asks for no new follow-up once the next plan's
      file exists, or while the next id is taken. */
  function Effective(limits: Limits, w: World): Limits {
    var r := w.record;
    limits.(followUps := if r.counted == r.run.followUps && |r.plan| == w.longest then limits.followUps else r.run.followUps)
  }

  lemma EffectiveSound(spec: Spec, limits: Limits, w: World)
    requires SoundRecord(spec, limits, w.record)
    ensures Sound(spec, Effective(limits, w), w.record.run)
    ensures w.record.run.followUps <= Effective(limits, w).followUps <= limits.followUps
  {
    SoundWith(spec, limits, w.record.run, Effective(limits, w).followUps);
  }

  /** The decisions a record still lets its processes make, if nothing is forgotten. */
  ghost function Potential(spec: Spec, limits: Limits, w: World): nat
    requires SoundRecord(spec, limits, w.record)
  {
    EffectiveSound(spec, limits, w);
    if Listed(w.record) then Remaining(spec, Effective(limits, w), w.record.run) else 0
  }

  /** An event that gives no decision back: a lock on a record with no more to give than the one it
      replaces, and no follow-up that replaces an entry. */
  ghost predicate Careful(spec: Spec, limits: Limits, w: World, e: Event)
    requires Linted(spec) && Steady(spec, limits, w) && Allowed(spec, limits, w, e)
  {
    && (e.Lock? || e.Refuse? ==> Potential(spec, limits, w.(record := e.copy)) <= Potential(spec, limits, w))
    && (e.Append? || (e.Cut? && e.k >= 2) ==> !Repeating(w.record))
  }

  ghost predicate AllCareful(spec: Spec, limits: Limits, w: World, events: seq<Event>)
    requires Linted(spec) && Steady(spec, limits, w) && Occurs(spec, limits, w, events)
    decreases |events|
  {
    events != [] ==>
      && Careful(spec, limits, w, events[0])
      && (NextSteady(spec, limits, w, events[0]);
          AllCareful(spec, limits, Next(spec, limits, w, events[0]), events[1..]))
  }

  lemma ListedGrows(r: Record)
    requires |r.plan| >= 2 && Listed(r)
    ensures Listed(AfterUpdates(r, 3)) && |AfterUpdates(r, 3).plan| == |r.plan| + 1
  {
    var after := AfterUpdates(r, 3);
    forall i | 0 <= i < |after.plan| ensures after.plan[i] in after.run.tasks {
      if i < |r.plan| - 1 { assert r.plan[i] in r.run.tasks; }
    }
  }

  lemma NewEntry(spec: Spec, limits: Limits, r: Record)
    requires r.counted == r.run.followUps && Enabled(spec, limits, r.run, Schedule)
    ensures !OwnEntry(spec, r)
    ensures WithEntry(r.run, r.counted + 1) == Apply(spec, limits, r.run, Schedule)
  {
  }

  /** A follow-up with a new id leaves as much as there was. */
  lemma AppendKeepsPotential(spec: Spec, limits: Limits, w: World)
    requires Linted(spec) && Steady(spec, limits, w) && Appendable(spec, limits, w) && !Repeating(w.record)
    ensures Steady(spec, limits, Next(spec, limits, w, Append))
    ensures Potential(spec, limits, Next(spec, limits, w, Append)) <= Potential(spec, limits, w)
    ensures Next(spec, limits, w, Append) == w.(record := AfterUpdates(w.record, 3), longest := w.longest + 1)
    ensures AfterUpdates(w.record, 3).run == Apply(spec, limits, w.record.run, Schedule)
    ensures Listed(AfterUpdates(w.record, 3))
    ensures Effective(limits, Next(spec, limits, w, Append)) == limits == Effective(limits, w)
  {
    NextSteady(spec, limits, w, Append);
    NewEntry(spec, limits, w.record);
    ListedGrows(w.record);
    StepSpends(spec, limits, w.record.run, Schedule);
  }

  /** Ending the process gives nothing back. */
  lemma RestPotential(spec: Spec, limits: Limits, w: World, w': World)
    requires Linted(spec) && SoundRecord(spec, limits, w.record) && w'.record == Rest(w.record) && w'.longest == w.longest
    ensures SoundRecord(spec, limits, w'.record)
    ensures Potential(spec, limits, w') <= Potential(spec, limits, w)
  {
    RestSound(spec, limits, w.record);
    EffectiveSound(spec, limits, w);
    StepSpends(spec, Effective(limits, w), w.record.run, Stop);
  }

  /** Only a follow-up asks how many there may be. */
  lemma SameStep(spec: Spec, limits: Limits, n: nat, g: Generation, step: Step)
    requires !step.Schedule?
    ensures Enabled(spec, limits, g, step) <==> Enabled(spec, limits.(followUps := n), g, step)
    ensures Enabled(spec, limits, g, step) ==>
      && Apply(spec, limits.(followUps := n), g, step) == Apply(spec, limits, g, step)
      && Apply(spec, limits, g, step).followUps == g.followUps
  {
  }

  lemma WorkPotential(spec: Spec, limits: Limits, w: World, step: Step)
    requires Linted(spec) && Steady(spec, limits, w) && Allowed(spec, limits, w, Work(step))
    ensures Steady(spec, limits, Next(spec, limits, w, Work(step)))
    ensures Potential(spec, limits, Next(spec, limits, w, Work(step))) + (if step.Decide? then 1 else 0) <= Potential(spec, limits, w)
  {
    NextSteady(spec, limits, w, Work(step));
    EffectiveSound(spec, limits, w);
    SameStep(spec, limits, Effective(limits, w).followUps, w.record.run, step);
    StepSpends(spec, Effective(limits, w), w.record.run, step);
  }

  /** Before the entry is made, the plan's file alone has been written, or the plan names a task without
      an entry; a taken id stays taken. */
  lemma EarlyCutPotential(spec: Spec, limits: Limits, w: World, k: nat)
    requires Linted(spec) && Steady(spec, limits, w) && Appendable(spec, limits, w) && k < 2
    ensures Steady(spec, limits, Next(spec, limits, w, Cut(k)))
    ensures Potential(spec, limits, Next(spec, limits, w, Cut(k))) <= Potential(spec, limits, w)
  {
    var w' := Next(spec, limits, w, Cut(k));
    NextSteady(spec, limits, w, Cut(k));
    EffectiveSound(spec, limits, w);
    EffectiveSound(spec, limits, w');
    if Listed(w'.record) {
      StepSpends(spec, Effective(limits, w'), w.record.run, Stop);
      FewerFollowUps(spec, Effective(limits, w), w.record.run, Effective(limits, w').followUps);
    }
  }

  lemma LateCutPotential(spec: Spec, limits: Limits, w: World, k: nat)
    requires Linted(spec) && Steady(spec, limits, w) && Appendable(spec, limits, w) && 2 <= k <= 3 && !Repeating(w.record)
    ensures Steady(spec, limits, Next(spec, limits, w, Cut(k)))
    ensures Potential(spec, limits, Next(spec, limits, w, Cut(k))) <= Potential(spec, limits, w)
  {
    var w1, w' := Next(spec, limits, w, Append), Next(spec, limits, w, Cut(k));
    NextSteady(spec, limits, w, Cut(k));
    AppendKeepsPotential(spec, limits, w);
    EffectiveSound(spec, limits, w');
    StepSpends(spec, limits, w1.record.run, Stop);
    FewerFollowUps(spec, limits, w'.record.run, Effective(limits, w').followUps);
  }

  /** A careful event makes no decision that was not left, and gives none back. */
  lemma NextSpends(spec: Spec, limits: Limits, w: World, e: Event)
    requires Linted(spec) && Steady(spec, limits, w) && Allowed(spec, limits, w, e) && Careful(spec, limits, w, e)
    ensures Steady(spec, limits, Next(spec, limits, w, e))
    ensures Potential(spec, limits, Next(spec, limits, w, e)) + (if e == Work(Decide) then 1 else 0) <= Potential(spec, limits, w)
  {
    NextSteady(spec, limits, w, e);
    match e
    case Read =>
    case Lock(copy) =>
    case Refuse(copy) => RefusedPotential(spec, limits, w, copy);
    case Work(step) => WorkPotential(spec, limits, w, step);
    case Append => AppendKeepsPotential(spec, limits, w);
    case Cut(k) => if k < 2 { EarlyCutPotential(spec, limits, w, k); } else { LateCutPotential(spec, limits, w, k); }
    case Quit => RestPotential(spec, limits, w, Next(spec, limits, w, Quit));
  }

  lemma RefusedPotential(spec: Spec, limits: Limits, w: World, copy: Record)
    requires Linted(spec) && Steady(spec, limits, w) && Allowed(spec, limits, w, Refuse(copy))
    ensures Steady(spec, limits, Next(spec, limits, w, Refuse(copy)))
    ensures Potential(spec, limits, Next(spec, limits, w, Refuse(copy))) <= Potential(spec, limits, w.(record := copy))
  {
    NextSteady(spec, limits, w, Refuse(copy));
    if copy.run.succeeded {
      EffectiveSound(spec, limits, w.(record := copy));
      StepSpends(spec, Effective(limits, w.(record := copy)), copy.run, Withdraw);
    }
  }

  lemma {:induction false} CarefulSpends(spec: Spec, limits: Limits, w: World, events: seq<Event>)
    requires Linted(spec) && Steady(spec, limits, w) && Occurs(spec, limits, w, events) && AllCareful(spec, limits, w, events)
    ensures Made(events) <= Potential(spec, limits, w)
    decreases |events|
  {
    if events != [] {
      NextSpends(spec, limits, w, events[0]);
      CarefulSpends(spec, limits, Next(spec, limits, w, events[0]), events[1..]);
    }
  }

  lemma Before(spec: Spec, limits: Limits, w: World, e: Event, events: seq<Event>)
    requires Linted(spec) && Steady(spec, limits, w) && Allowed(spec, limits, w, e) && Careful(spec, limits, w, e)
    requires Steady(spec, limits, Next(spec, limits, w, e)) && Occurs(spec, limits, Next(spec, limits, w, e), events)
    requires AllCareful(spec, limits, Next(spec, limits, w, e), events)
    ensures Occurs(spec, limits, w, [e] + events) && AllCareful(spec, limits, w, [e] + events)
    ensures Made([e] + events) == (if e == Work(Decide) then 1 else 0) + Made(events)
  {
    assert ([e] + events)[1..] == events;
  }

  /** Careful events that make n decisions. */
  ghost predicate Makes(spec: Spec, limits: Limits, w: World, events: seq<Event>, n: nat) {
    && Linted(spec) && Steady(spec, limits, w) && Occurs(spec, limits, w, events)
    && AllCareful(spec, limits, w, events) && Made(events) == n
  }

  /** A process ends and another goes on from the file it left. */
  lemma Restarted(spec: Spec, limits: Limits, w: World, events: seq<Event>, n: nat)
    requires Linted(spec) && Steady(spec, limits, w) && w.held && !w.record.run.succeeded
    requires Makes(spec, limits, w.(record := Rest(w.record), copies := w.copies + {Rest(w.record)}), events, n)
    ensures Makes(spec, limits, w, [Quit] + ([Read] + ([Lock(Rest(w.record))] + events)), n)
  {
    var copy := Rest(w.record);
    var w1 := Next(spec, limits, w, Quit);
    var w2 := Next(spec, limits, w1, Read);
    NextSteady(spec, limits, w, Quit);
    NextSteady(spec, limits, w1, Read);
    assert w2.(record := copy) == w2;
    Before(spec, limits, w2, Lock(copy), events);
    Before(spec, limits, w1, Read, [Lock(copy)] + events);
    Before(spec, limits, w, Quit, [Read] + ([Lock(copy)] + events));
  }

  lemma DeliveredMakesNone(spec: Spec, limits: Limits, g: Generation, steps: seq<Step>)
    requires Linted(spec) && Sound(spec, limits, g) && Orderly(spec, g) && g.delivered && Happens(spec, limits, g, steps)
    ensures DecisionsMade(steps) == 0
  {
    SpendsAtMost(spec, limits, g, steps);
    assert AllPassed(spec, g);
  }

  lemma WorkLifted(spec: Spec, limits: Limits, w: World, step: Step)
    requires Linted(spec) && Steady(spec, limits, w) && w.held && Listed(w.record) && !step.Schedule? && !step.Stop?
    requires Enabled(spec, Effective(limits, w), w.record.run, step)
    ensures Allowed(spec, limits, w, Work(step)) && Careful(spec, limits, w, Work(step))
    ensures var w' := Next(spec, limits, w, Work(step));
      && Steady(spec, limits, w') && w'.held && Listed(w'.record) && Effective(limits, w') == Effective(limits, w)
      && w'.record.run == Apply(spec, Effective(limits, w), w.record.run, step)
  {
    SameStep(spec, limits, Effective(limits, w).followUps, w.record.run, step);
    NextSteady(spec, limits, w, Work(step));
    ListedStill(spec, limits, w.record, step);
  }

  lemma ListedStill(spec: Spec, limits: Limits, r: Record, step: Step)
    requires Listed(r) && Enabled(spec, limits, r.run, step)
    ensures Listed(r.(run := Apply(spec, limits, r.run, step)))
  {
    assert r.run.tasks.Keys <= Apply(spec, limits, r.run, step).tasks.Keys;
  }

  lemma RestSteady(spec: Spec, limits: Limits, w: World)
    requires Linted(spec) && Steady(spec, limits, w) && w.held
    ensures var w' := w.(record := Rest(w.record), copies := w.copies + {Rest(w.record)});
      Steady(spec, limits, w') && Effective(limits, w') == Effective(limits, w) && (Listed(w.record) ==> Listed(w'.record))
  {
    NextSteady(spec, limits, w, Read);
    RestSound(spec, limits, w.record);
  }

  lemma AppendLifted(spec: Spec, limits: Limits, w: World, events: seq<Event>, n: nat)
    requires Linted(spec) && Steady(spec, limits, w) && Appendable(spec, limits, w) && !Repeating(w.record)
    requires Makes(spec, limits, Next(spec, limits, w, Append), events, n)
    ensures Makes(spec, limits, w, [Append] + events, n)
  {
    Before(spec, limits, w, Append, events);
  }

  lemma WorkThen(spec: Spec, limits: Limits, w: World, step: Step, events: seq<Event>, n: nat)
    requires Linted(spec) && Steady(spec, limits, w) && Allowed(spec, limits, w, Work(step))
    requires Makes(spec, limits, Next(spec, limits, w, Work(step)), events, n)
    ensures Makes(spec, limits, w, [Work(step)] + events, n + if step.Decide? then 1 else 0)
  {
    Before(spec, limits, w, Work(step), events);
  }

  /** Whatever one lineage of records could do, processes that follow one another do. */
  lemma {:induction false} Lifted(spec: Spec, limits: Limits, w: World, steps: seq<Step>) returns (events: seq<Event>)
    requires Linted(spec) && Steady(spec, limits, w) && w.held && Listed(w.record)
    requires Happens(spec, Effective(limits, w), w.record.run, steps)
    ensures Makes(spec, limits, w, events, DecisionsMade(steps))
    decreases |steps|
  {
    if steps == [] {
      events := [];
    } else if w.record.run.succeeded {
      EffectiveSound(spec, limits, w);
      DeliveredMakesNone(spec, Effective(limits, w), w.record.run, steps);
      events := [];
    } else if steps[0].Schedule? {
      AppendKeepsPotential(spec, limits, w);
      events := Lifted(spec, limits, Next(spec, limits, w, Append), steps[1..]);
      AppendLifted(spec, limits, w, events, DecisionsMade(steps[1..]));
      events := [Append] + events;
    } else if steps[0].Stop? {
      var w' := w.(record := Rest(w.record), copies := w.copies + {Rest(w.record)});
      RestSteady(spec, limits, w);
      events := Lifted(spec, limits, w', steps[1..]);
      Restarted(spec, limits, w, events, DecisionsMade(steps[1..]));
      events := [Quit] + ([Read] + ([Lock(Rest(w.record))] + events));
    } else {
      WorkLifted(spec, limits, w, steps[0]);
      events := Lifted(spec, limits, Next(spec, limits, w, Work(steps[0])), steps[1..]);
      WorkThen(spec, limits, w, steps[0], events, DecisionsMade(steps[1..]));
      events := [Work(steps[0])] + events;
    }
  }

  /** A record's potential is reached by careful events once its lock is taken. */
  lemma PotentialReached(spec: Spec, limits: Limits, w: World) returns (events: seq<Event>)
    requires Linted(spec) && Steady(spec, limits, w) && w.held && Idle(w.record.run)
    ensures Makes(spec, limits, w, events, Potential(spec, limits, w))
  {
    events := [];
    if Listed(w.record) {
      EffectiveSound(spec, limits, w);
      var steps := SpendAll(spec, Effective(limits, w), w.record.run);
      events := Lifted(spec, limits, w, steps);
    }
  }

  /** A lock leaves every later careful history of the run within a bound exactly when the decisions
      made so far, and those its copy still lets happen, are within it. */
  lemma LockWithinIff(spec: Spec, limits: Limits, past: seq<Event>, copy: Record, n: nat)
    requires Linted(spec) && Occurs(spec, limits, NewWorld(spec), past)
    requires Allowed(spec, limits, Last(spec, limits, NewWorld(spec), past), Lock(copy))
    ensures var w := Next(spec, limits, Last(spec, limits, NewWorld(spec), past), Lock(copy));
      && Steady(spec, limits, w)
      && (CarefullyWithin(spec, limits, w, n - Made(past)) <==> Made(past) + Potential(spec, limits, w) <= n)
  {
    NewSteady(spec, limits);
    AlwaysSteady(spec, limits, NewWorld(spec), past);
    var before := Last(spec, limits, NewWorld(spec), past);
    NextSteady(spec, limits, before, Lock(copy));
    var w := Next(spec, limits, before, Lock(copy));
    var most := PotentialReached(spec, limits, w);
    CarefullyWithinIff(spec, limits, w, most, n - Made(past));
  }

  /** Every careful history from here makes at most n decisions. */
  ghost predicate CarefullyWithin(spec: Spec, limits: Limits, w: World, n: int)
    requires Linted(spec) && Steady(spec, limits, w)
  {
    forall events | Occurs(spec, limits, w, events) && AllCareful(spec, limits, w, events) :: Made(events) <= n
  }

  /** Events that reach the potential show it to be the least bound. */
  lemma CarefullyWithinIff(spec: Spec, limits: Limits, w: World, most: seq<Event>, n: int)
    requires Linted(spec) && Steady(spec, limits, w) && Makes(spec, limits, w, most, Potential(spec, limits, w))
    ensures CarefullyWithin(spec, limits, w, n) <==> Potential(spec, limits, w) <= n
  {
    if Potential(spec, limits, w) <= n {
      forall events | Occurs(spec, limits, w, events) && AllCareful(spec, limits, w, events)
        ensures Made(events) <= n
      {
        CarefulSpends(spec, limits, w, events);
      }
    } else {
      assert Occurs(spec, limits, w, most) && AllCareful(spec, limits, w, most) && Made(most) > n;
    }
  }

  /** So it is by a process that takes the lock on the file as it is. */
  lemma RestReaches(spec: Spec, limits: Limits, w: World) returns (events: seq<Event>)
    requires Linted(spec) && Steady(spec, limits, w) && !w.held && !w.record.run.succeeded
    ensures Makes(spec, limits, w, events, Potential(spec, limits, w))
  {
    var w1 := Next(spec, limits, w, Read);
    var w2 := Next(spec, limits, w1, Lock(w.record));
    NextSteady(spec, limits, w, Read);
    NextSteady(spec, limits, w1, Lock(w.record));
    events := PotentialReached(spec, limits, w2);
    Before(spec, limits, w1, Lock(w.record), events);
    events := [Lock(w.record)] + events;
    Before(spec, limits, w, Read, events);
    events := [Read] + events;
  }

  lemma NewPotential(spec: Spec, limits: Limits)
    requires Linted(spec)
    ensures Steady(spec, limits, NewWorld(spec))
    ensures Potential(spec, limits, NewWorld(spec)) == Remaining(spec, limits, NewGeneration(spec))
  {
    NewSteady(spec, limits);
    PlanIsOnPlan(spec, 0);
    AllListed(spec, NewWorld(spec).record);
  }

  /** Careful histories of a new run make as many decisions as it has left at most, and one makes as many. */
  lemma CarefulLifetime(spec: Spec, limits: Limits, n: nat)
    requires Linted(spec)
    ensures Steady(spec, limits, NewWorld(spec))
    ensures CarefullyWithin(spec, limits, NewWorld(spec), n) <==> Remaining(spec, limits, NewGeneration(spec)) <= n
  {
    var w := NewWorld(spec);
    NewPotential(spec, limits);
    var most := RestReaches(spec, limits, w);
    CarefullyWithinIff(spec, limits, w, most, n);
  }

  // ------------------------------------------------------------------ where a follow-up may be cut

  predicate Distinct(plan: seq<TaskId>) {
    forall i, j | 0 <= i < j < |plan| :: plan[i] != plan[j]
  }

  /** The ids of the plan with the given number of follow-ups. */
  predicate OnPlan(spec: Spec, k: nat, plan: seq<TaskId>) {
    |plan| == Size(spec, k) && forall i | 0 <= i < |plan| :: plan[i] == IdAt(spec, k, i)
  }

  /** The counter tells the entries, and the plan is one a run can have: at most one of its follow-ups
      lacks an entry. */
  predicate Intact(spec: Spec, r: Record) {
    r.counted == r.run.followUps && (OnPlan(spec, r.run.followUps, r.plan) || OnPlan(spec, r.run.followUps + 1, r.plan))
  }

  predicate Unspoiled(spec: Spec, limits: Limits, w: World) {
    Steady(spec, limits, w) && Intact(spec, w.record) && forall r | r in w.copies :: Intact(spec, r)
  }

  lemma PlacesDiffer(spec: Spec, k: nat, i: nat, j: nat)
    requires Linted(spec) && i < j < Size(spec, k)
    ensures IdAt(spec, k, i) != IdAt(spec, k, j)
  {
    PlanOrdered(spec, k, i, j);
    PlanElement(spec, k, i);
    PlanElement(spec, k, j);
  }

  lemma OnPlanDistinct(spec: Spec, k: nat, plan: seq<TaskId>)
    requires Linted(spec) && OnPlan(spec, k, plan)
    ensures Distinct(plan)
  {
    forall i, j | 0 <= i < j < |plan| ensures plan[i] != plan[j] {
      PlacesDiffer(spec, k, i, j);
    }
  }

  lemma IntactDistinct(spec: Spec, r: Record)
    requires Linted(spec) && Intact(spec, r)
    ensures Distinct(r.plan)
  {
    OnPlanDistinct(spec, if OnPlan(spec, r.run.followUps, r.plan) then r.run.followUps else r.run.followUps + 1, r.plan);
  }

  lemma PlanIsOnPlan(spec: Spec, k: nat)
    ensures OnPlan(spec, k, PlanIds(PlanOf(spec, k))) && |PlanIds(PlanOf(spec, k))| >= 3
  {
    forall i | 0 <= i < Size(spec, k)
      ensures |PlanOf(spec, k)| == Size(spec, k) && PlanOf(spec, k)[i].id == IdAt(spec, k, i)
    {
      PlanElement(spec, k, i);
    }
    PlanElement(spec, k, 0);
  }

  lemma AllListed(spec: Spec, r: Record)
    requires Covers(spec, r.run) && OnPlan(spec, r.run.followUps, r.plan)
    ensures Listed(r)
  {
    forall i | 0 <= i < |r.plan| ensures r.plan[i] in r.run.tasks {
      assert TaskOf(spec, r.run, i) in r.run.tasks;
    }
  }

  lemma LastFollowUp(spec: Spec, k: nat, plan: seq<TaskId>)
    requires k > 0 && OnPlan(spec, k, plan)
    ensures |plan| >= 3 && plan[|plan| - 2] == FollowUp(k)
  {
  }

  lemma NextUnlisted(spec: Spec, limits: Limits, g: Generation, r: Record)
    requires Sound(spec, limits, g) && r.run.tasks == g.tasks && OnPlan(spec, g.followUps + 1, r.plan)
    ensures !Listed(r)
  {
    LastFollowUp(spec, g.followUps + 1, r.plan);
    assert !Planned(spec, g.followUps, FollowUp(g.followUps + 1));
  }

  /** While no id is taken and the plan's tasks all have entries, the plan is that of its follow-ups. */
  lemma ListedPlan(spec: Spec, limits: Limits, r: Record)
    requires SoundRecord(spec, limits, r) && Intact(spec, r)
    ensures Listed(r) <==> OnPlan(spec, r.run.followUps, r.plan)
  {
    if OnPlan(spec, r.run.followUps, r.plan) { AllListed(spec, r); } else { NextUnlisted(spec, limits, r.run, r); }
  }

  lemma PlaceMoves(spec: Spec, k: nat, i: nat)
    requires i <= Size(spec, k)
    ensures Size(spec, k + 1) == Size(spec, k) + 1 >= 4
    ensures IdAt(spec, k + 1, i) ==
      if i < Size(spec, k) - 1 then IdAt(spec, k, i) else if i == Size(spec, k) - 1 then FollowUp(k + 1) else IdAt(spec, k, i - 1)
  {
  }

  lemma GrownOnPlan(spec: Spec, n: nat, plan: seq<TaskId>)
    requires OnPlan(spec, n, plan)
    ensures |plan| >= 2 && OnPlan(spec, n + 1, Grown(plan, n + 1))
  {
    PlaceMoves(spec, n, 0);
    var more := Grown(plan, n + 1);
    forall i | 0 <= i < |more| ensures more[i] == IdAt(spec, n + 1, i) {
      PlaceMoves(spec, n, i);
    }
  }

  lemma CutValues(spec: Spec, r: Record, k: nat)
    requires r.counted == r.run.followUps && OnPlan(spec, r.run.followUps, r.plan)
    ensures |r.plan| >= 2 && OnPlan(spec, if k >= 1 then r.run.followUps + 1 else r.run.followUps, AfterUpdates(r, k).plan)
    ensures AfterUpdates(r, k).run.followUps == r.run.followUps + if k >= 2 then 1 else 0
    ensures AfterUpdates(r, k).counted == r.counted + if k >= 3 then 1 else 0
  {
    GrownOnPlan(spec, r.run.followUps, r.plan);
  }

  lemma CutStaysIntact(spec: Spec, r: Record, k: nat)
    requires r.counted == r.run.followUps && OnPlan(spec, r.run.followUps, r.plan) && k <= 3 && k != 2
    ensures |r.plan| >= 2 && Intact(spec, AfterUpdates(r, k)) && Intact(spec, Rest(AfterUpdates(r, k)))
  {
    CutValues(spec, r, k);
  }

  lemma CutIntact(spec: Spec, limits: Limits, w: World, k: nat)
    requires SoundRecord(spec, limits, w.record) && Intact(spec, w.record) && Appendable(spec, limits, w) && k <= 3
    ensures OnPlan(spec, w.record.run.followUps, w.record.plan)
    ensures k != 2 ==> Intact(spec, AfterUpdates(w.record, k)) && Intact(spec, Rest(AfterUpdates(w.record, k)))
  {
    ListedPlan(spec, limits, w.record);
    if k != 2 { CutStaysIntact(spec, w.record, k); }
  }

  lemma WorkIntact(spec: Spec, limits: Limits, r: Record, step: Step)
    requires Intact(spec, r) && !step.Schedule? && Enabled(spec, limits, r.run, step)
    ensures Intact(spec, r.(run := Apply(spec, limits, r.run, step)))
  {
    SameStep(spec, limits, 0, r.run, step);
  }

  lemma NextIntact(spec: Spec, limits: Limits, w: World, e: Event)
    requires Unspoiled(spec, limits, w) && Allowed(spec, limits, w, e) && e != Cut(2)
    ensures Intact(spec, Next(spec, limits, w, e).record)
  {
    if e.Append? {
      CutIntact(spec, limits, w, 3);
    } else if e.Cut? {
      CutIntact(spec, limits, w, e.k);
    } else if e.Work? {
      WorkIntact(spec, limits, w.record, e.step);
    }
  }

  lemma NextUnspoiled(spec: Spec, limits: Limits, w: World, e: Event)
    requires Linted(spec) && Unspoiled(spec, limits, w) && Allowed(spec, limits, w, e) && e != Cut(2)
    ensures Unspoiled(spec, limits, Next(spec, limits, w, e))
  {
    NextSteady(spec, limits, w, e);
    NextIntact(spec, limits, w, e);
  }

  lemma {:induction false} AlwaysUnspoiled(spec: Spec, limits: Limits, w: World, events: seq<Event>)
    requires Linted(spec) && Unspoiled(spec, limits, w) && Occurs(spec, limits, w, events) && Cut(2) !in events
    ensures Unspoiled(spec, limits, Last(spec, limits, w, events))
    ensures Distinct(Last(spec, limits, w, events).record.plan)
    decreases |events|
  {
    if events == [] {
      IntactDistinct(spec, w.record);
    } else {
      assert events[0] in events;
      NextUnspoiled(spec, limits, w, events[0]);
      AlwaysUnspoiled(spec, limits, Next(spec, limits, w, events[0]), events[1..]);
    }
  }

  lemma NewUnspoiled(spec: Spec, limits: Limits)
    ensures Unspoiled(spec, limits, NewWorld(spec))
  {
    NewSteady(spec, limits);
  }

  /** An id inserted where one with the same number stands makes two of it. */
  lemma TwoOfOne(plan: seq<TaskId>, n: nat)
    requires |plan| >= 2 && plan[|plan| - 2] == FollowUp(n)
    ensures !Distinct(Grown(plan, n))
  {
    var i := |plan| - 2;
    assert Grown(plan, n)[i] == Grown(plan, n)[i + 1];
  }

  /** Histories without a further cut at the entry keep the plan's ids distinct exactly when this cut is not
      one between the entry and the counter. */
  lemma CutKeepsIdsIff(spec: Spec, limits: Limits, w: World, k: nat)
    requires Linted(spec) && Unspoiled(spec, limits, w) && Allowed(spec, limits, w, Cut(k))
    ensures var w' := Next(spec, limits, w, Cut(k));
      (forall events | Occurs(spec, limits, w', events) && Cut(2) !in events :: Distinct(Last(spec, limits, w', events).record.plan))
      <==> k != 2
  {
    var w' := Next(spec, limits, w, Cut(k));
    if k == 2 {
      var events := RepeatsId(spec, limits, w);
      assert Occurs(spec, limits, w', events) && Cut(2) !in events;
    } else {
      NextUnspoiled(spec, limits, w, Cut(k));
      forall events | Occurs(spec, limits, w', events) && Cut(2) !in events
        ensures Distinct(Last(spec, limits, w', events).record.plan)
      {
        AlwaysUnspoiled(spec, limits, w', events);
      }
    }
  }

  /** One event after another. */
  lemma Chained(spec: Spec, limits: Limits, w: World, e: Event, events: seq<Event>)
    requires Allowed(spec, limits, w, e) && Occurs(spec, limits, Next(spec, limits, w, e), events)
    ensures Occurs(spec, limits, w, [e] + events)
    ensures Last(spec, limits, w, [e] + events) == Last(spec, limits, Next(spec, limits, w, e), events)
  {
    assert ([e] + events)[1..] == events;
  }

  /** A holder whose record's next id is taken, about to open a session on a task that may ask for a
      follow-up. */
  predicate Poised(spec: Spec, limits: Limits, w: World, p: nat) {
    && Steady(spec, limits, w) && w.held
    && w.record.counted + 1 == w.record.run.followUps && w.record.counted < limits.followUps
    && OnPlan(spec, w.record.run.followUps, w.record.plan) && |w.record.plan| == w.longest
    && p < Places(spec, w.record.run) - 1 && Enabled(spec, limits, w.record.run, OpenSession(p, false))
  }

  lemma OpenListed(spec: Spec, limits: Limits, w: World, p: nat)
    requires Linted(spec) && Poised(spec, limits, w, p)
    ensures Allowed(spec, limits, w, Work(OpenSession(p, false)))
    ensures var w' := Next(spec, limits, w, Work(OpenSession(p, false)));
      && Steady(spec, limits, w') && Listed(w'.record) && !w'.record.run.succeeded
      && w'.record.run.session == Some(Session(p, limits.decisions))
      && w'.record.run.followUps == w.record.run.followUps && p < Places(spec, w'.record.run) - 1
      && At(spec, w'.record.run, p).sessions == At(spec, w.record.run, p).sessions + 1
      && w'.record.plan == w.record.plan && w'.record.counted == w.record.counted
      && (At(spec, w'.record.run, p).sessions < limits.sessions ==> Appendable(spec, limits, w'))
  {
    var g := w.record.run;
    AllListed(spec, w.record);
    NextSteady(spec, limits, w, Work(OpenSession(p, false)));
    ListedStill(spec, limits, w.record, OpenSession(p, false));
    Updated(spec, g, p, At(spec, g, p).(sessions := At(spec, g, p).sessions + 1, status := Running),
      Apply(spec, limits, g, OpenSession(p, false)));
  }

  lemma AskedTwice(spec: Spec, limits: Limits, w: World)
    requires Appendable(spec, limits, w) && w.record.plan[|w.record.plan| - 2] == FollowUp(w.record.counted + 1)
    ensures Occurs(spec, limits, w, [Append])
    ensures !Distinct(Last(spec, limits, w, [Append]).record.plan)
  {
    TwoOfOne(w.record.plan, w.record.counted + 1);
    assert [Append][1..] == [];
  }

  lemma AskAgain(spec: Spec, limits: Limits, w: World, p: nat) returns (events: seq<Event>)
    requires Linted(spec) && Poised(spec, limits, w, p) && At(spec, w.record.run, p).sessions + 1 < limits.sessions
    ensures Occurs(spec, limits, w, events) && Cut(2) !in events
    ensures !Distinct(Last(spec, limits, w, events).record.plan)
  {
    OpenListed(spec, limits, w, p);
    LastFollowUp(spec, w.record.run.followUps, w.record.plan);
    AskedTwice(spec, limits, Next(spec, limits, w, Work(OpenSession(p, false))));
    Chained(spec, limits, w, Work(OpenSession(p, false)), [Append]);
    events := [Work(OpenSession(p, false))] + [Append];
  }

  lemma PassOn(spec: Spec, limits: Limits, w: World, p: nat) returns (pass: Event)
    requires Linted(spec) && Steady(spec, limits, w) && w.held && Listed(w.record) && !w.record.run.succeeded
    requires w.record.run.session.Some? && w.record.run.session.value.place == p < Places(spec, w.record.run) - 1
    requires !w.record.run.delivering && limits.sessions > 0
    ensures Allowed(spec, limits, w, pass) && pass.Work?
    ensures var w' := Next(spec, limits, w, pass);
      && Steady(spec, limits, w') && w'.held && w'.record.run.followUps == w.record.run.followUps
      && w'.record.counted == w.record.counted && w'.record.plan == w.record.plan && w'.longest == w.longest
      && At(spec, w'.record.run, p + 1).sessions == 0
      && Enabled(spec, limits, w'.record.run, OpenSession(p + 1, false))
  {
    var g := w.record.run;
    FullClaimsValid(spec, g.followUps, p);
    var step := AcceptTask(FullClaims(TaskAt(spec, g.followUps, p)), true, true);
    pass := Work(step);
    NextSteady(spec, limits, w, pass);
    NextUntouched(spec, limits, g);
    Updated(spec, g, p, At(spec, g, p).(status := Passed, claims := step.claims), Apply(spec, limits, g, step));
  }

  /** The task that asked still has a session, and its follow-up comes before final integration. */
  lemma CutRun(spec: Spec, limits: Limits, g: Generation)
    requires Linted(spec) && Sound(spec, limits, g) && Orderly(spec, g) && Enabled(spec, limits, g, Schedule)
    ensures var p, g' := g.session.value.place, Resting(Apply(spec, limits, g, Schedule));
      && p < Places(spec, g') - 2 && Enabled(spec, limits, g', OpenSession(p, false))
      && 0 < At(spec, g', p).sessions < limits.sessions
  {
    var g1 := Apply(spec, limits, g, Schedule);
    Scheduled(spec, g, g1);
    Untouched(spec, g1, Resting(g1));
    PassedPrefix(spec, g, Resting(g1), g.session.value.place);
  }

  lemma CutPoises(spec: Spec, limits: Limits, w: World, w': World)
    requires Linted(spec) && Unspoiled(spec, limits, w) && Allowed(spec, limits, w, Cut(2)) && w' == Next(spec, limits, w, Cut(2))
    ensures Steady(spec, limits, w') && !w'.held && !w'.record.run.succeeded && Rest(w'.record) == w'.record
    ensures Poised(spec, limits, w'.(copies := w'.copies + {w'.record}, held := true), w.record.run.session.value.place)
    ensures w.record.run.session.value.place < Places(spec, w'.record.run) - 2
    ensures 0 < At(spec, w'.record.run, w.record.run.session.value.place).sessions < limits.sessions
  {
    NextSteady(spec, limits, w, Cut(2));
    CutIntact(spec, limits, w, 2);
    CutValues(spec, w.record, 2);
    NewEntry(spec, limits, w.record);
    CutRun(spec, limits, w.record.run);
  }

  /** The task that asked passes in its last session, and the next task asks. */
  lemma NextAsks(spec: Spec, limits: Limits, w: World, p: nat) returns (events: seq<Event>)
    requires Linted(spec) && Poised(spec, limits, w, p) && p < Places(spec, w.record.run) - 2 && limits.sessions >= 2
    ensures Occurs(spec, limits, w, events) && Cut(2) !in events
    ensures !Distinct(Last(spec, limits, w, events).record.plan)
  {
    OpenListed(spec, limits, w, p);
    var w1 := Next(spec, limits, w, Work(OpenSession(p, false)));
    var pass := PassOn(spec, limits, w1, p);
    events := AskAgain(spec, limits, Next(spec, limits, w1, pass), p + 1);
    Chained(spec, limits, w1, pass, events);
    events := [pass] + events;
    Chained(spec, limits, w, Work(OpenSession(p, false)), events);
    events := [Work(OpenSession(p, false))] + events;
  }

  /** A process that reads the record and locks. */
  lemma LockTaken(spec: Spec, limits: Limits, w: World, events: seq<Event>)
    requires !w.held && !w.record.run.succeeded && Rest(w.record) == w.record
    requires Occurs(spec, limits, w.(copies := w.copies + {w.record}, held := true), events)
    ensures Occurs(spec, limits, w, [Read] + ([Lock(w.record)] + events))
    ensures Last(spec, limits, w, [Read] + ([Lock(w.record)] + events)) ==
      Last(spec, limits, w.(copies := w.copies + {w.record}, held := true), events)
  {
    var w1 := Next(spec, limits, w, Read);
    assert Next(spec, limits, w1, Lock(w.record)) == w.(copies := w.copies + {w.record}, held := true);
    Chained(spec, limits, w1, Lock(w.record), events);
    Chained(spec, limits, w, Read, [Lock(w.record)] + events);
  }

  /** After a cut between entry and counter, the next process can ask for the same id again. */
  lemma RepeatsId(spec: Spec, limits: Limits, w: World) returns (events: seq<Event>)
    requires Linted(spec) && Unspoiled(spec, limits, w) && Allowed(spec, limits, w, Cut(2))
    ensures Occurs(spec, limits, Next(spec, limits, w, Cut(2)), events) && Cut(2) !in events
    ensures !Distinct(Last(spec, limits, Next(spec, limits, w, Cut(2)), events).record.plan)
  {
    var w', p := Next(spec, limits, w, Cut(2)), w.record.run.session.value.place;
    CutPoises(spec, limits, w, w');
    var w1 := w'.(copies := w'.copies + {w'.record}, held := true);
    if At(spec, w1.record.run, p).sessions + 1 < limits.sessions {
      events := AskAgain(spec, limits, w1, p);
    } else {
      events := NextAsks(spec, limits, w1, p);
    }
    LockTaken(spec, limits, w', events);
    events := [Read] + ([Lock(w'.record)] + events);
  }

  // ------------------------------------------------------------------ where a cut leaves a run that goes on

  /** Every process works from the file its predecessor left. */
  ghost predicate AllFresh(spec: Spec, limits: Limits, w: World, events: seq<Event>)
    requires Occurs(spec, limits, w, events)
    decreases |events|
  {
    events != [] ==>
      && (events[0].Lock? || events[0].Refuse? ==> events[0].copy == w.record)
      && AllFresh(spec, limits, Next(spec, limits, w, events[0]), events[1..])
  }

  ghost predicate Idles(events: seq<Event>) { forall i | 0 <= i < |events| :: !events[i].Work? }

  lemma {:induction false} UnlistedIdles(spec: Spec, limits: Limits, w: World, events: seq<Event>)
    requires !Listed(w.record) && Occurs(spec, limits, w, events) && AllFresh(spec, limits, w, events)
    ensures Idles(events)
    decreases |events|
  {
    if events != [] {
      var w' := Next(spec, limits, w, events[0]);
      assert w'.record.plan == w.record.plan && w'.record.run.tasks == w.record.run.tasks;
      UnlistedIdles(spec, limits, w', events[1..]);
      assert events == [events[0]] + events[1..];
    }
  }

  lemma CutUnlisted(spec: Spec, limits: Limits, w: World)
    requires Linted(spec) && Unspoiled(spec, limits, w) && Allowed(spec, limits, w, Cut(1))
    ensures !Listed(Next(spec, limits, w, Cut(1)).record)
  {
    CutIntact(spec, limits, w, 1);
    CutValues(spec, w.record, 1);
    NextUnlisted(spec, limits, w.record.run, Rest(AfterUpdates(w.record, 1)));
  }

  lemma CutListed(spec: Spec, limits: Limits, w: World, k: nat)
    requires Linted(spec) && Unspoiled(spec, limits, w) && Allowed(spec, limits, w, Cut(k)) && k != 1
    ensures Listed(Next(spec, limits, w, Cut(k)).record)
  {
    NextSound(spec, limits, w, Cut(k));
    CutIntact(spec, limits, w, k);
    CutValues(spec, w.record, k);
    AllListed(spec, Next(spec, limits, w, Cut(k)).record);
  }

  /** Processes that work from the file a cut left do nothing with it exactly when the cut came between
      the active plan and the task's entry. */
  lemma CutStopsIff(spec: Spec, limits: Limits, w: World, k: nat)
    requires Linted(spec) && Unspoiled(spec, limits, w) && Allowed(spec, limits, w, Cut(k))
    ensures var w' := Next(spec, limits, w, Cut(k));
      (forall events | Occurs(spec, limits, w', events) && AllFresh(spec, limits, w', events) :: Idles(events)) <==> k == 1
  {
    var w' := Next(spec, limits, w, Cut(k));
    if k == 1 {
      CutUnlisted(spec, limits, w);
      forall events | Occurs(spec, limits, w', events) && AllFresh(spec, limits, w', events) ensures Idles(events) {
        UnlistedIdles(spec, limits, w', events);
      }
    } else {
      NextSteady(spec, limits, w, Cut(k));
      CutListed(spec, limits, w, k);
      CutGoesOn(spec, limits, w, k);
      var events := Reopens(spec, limits, w', w.record.run.session.value.place);
      assert Occurs(spec, limits, w', events) && AllFresh(spec, limits, w', events) && !Idles(events);
    }
  }

  lemma CutGoesOn(spec: Spec, limits: Limits, w: World, k: nat)
    requires Linted(spec) && Unspoiled(spec, limits, w) && Allowed(spec, limits, w, Cut(k)) && k != 1
    ensures var w' := Next(spec, limits, w, Cut(k));
      !w'.record.run.succeeded && Enabled(spec, limits, w'.record.run, OpenSession(w.record.run.session.value.place, false))
  {
    var g, p := w.record.run, w.record.run.session.value.place;
    NewEntry(spec, limits, w.record);
    if k == 0 {
      Untouched(spec, g, Resting(g));
      PassedPrefix(spec, g, Resting(g), p);
    } else {
      CutRun(spec, limits, g);
    }
  }

  lemma Reopens(spec: Spec, limits: Limits, w: World, p: nat) returns (events: seq<Event>)
    requires !w.held && !w.record.run.succeeded && Rest(w.record) == w.record && Listed(w.record)
    requires Enabled(spec, limits, w.record.run, OpenSession(p, false))
    ensures Occurs(spec, limits, w, events) && AllFresh(spec, limits, w, events) && !Idles(events)
  {
    var e := Work(OpenSession(p, false));
    events := [Read, Lock(w.record), e];
    var w1 := Next(spec, limits, w, Read);
    var w2 := Next(spec, limits, w1, Lock(w.record));
    assert events[1..] == [Lock(w.record), e] && events[1..][1..] == [e] && events[1..][1..][1..] == [];
    assert Occurs(spec, limits, w2, [e]) && AllFresh(spec, limits, w2, [e]);
    assert Occurs(spec, limits, w1, events[1..]) && AllFresh(spec, limits, w1, events[1..]);
    assert events[2].Work?;
  }

  // ------------------------------------------------------------------ nothing is forgotten unless

  lemma NextForgets(spec: Spec, limits: Limits, w: World, e: Event)
    requires Linted(spec) && Unspoiled(spec, limits, w) && Allowed(spec, limits, w, e) && e != Cut(2)
    requires e.Lock? || e.Refuse? ==> e.copy == w.record
    ensures Loses(spec, w, e) == 0
  {
    assert FollowUp(w.record.run.followUps + 1) !in w.record.run.tasks;
  }

  lemma {:induction false} FreshForgetNothing(spec: Spec, limits: Limits, w: World, events: seq<Event>)
    requires Linted(spec) && Unspoiled(spec, limits, w) && Occurs(spec, limits, w, events)
    requires AllFresh(spec, limits, w, events) && Cut(2) !in events
    ensures Forgotten(spec, limits, w, events) == 0
    decreases |events|
  {
    if events != [] {
      assert events[0] in events;
      NextForgets(spec, limits, w, events[0]);
      NextUnspoiled(spec, limits, w, events[0]);
      FreshForgetNothing(spec, limits, Next(spec, limits, w, events[0]), events[1..]);
    }
  }

  /** While processes work from the files their predecessors left and no follow-up is cut between its
      entry and the counter, every decision stays on record, and all of them are within the bound. */
  lemma FreshAreRecorded(spec: Spec, limits: Limits, events: seq<Event>)
    requires Linted(spec) && Occurs(spec, limits, NewWorld(spec), events)
    requires AllFresh(spec, limits, NewWorld(spec), events) && Cut(2) !in events
    ensures var g := Last(spec, limits, NewWorld(spec), events).record.run;
      && Covers(spec, g) && Made(events) == Recorded(spec, g)
      && Made(events) <= limits.decisions * (limits.sessions * (Size(spec, 0) + limits.followUps) + limits.repairs)
  {
    NewUnspoiled(spec, limits);
    FreshForgetNothing(spec, limits, NewWorld(spec), events);
    DecisionsAccounted(spec, limits, NewWorld(spec), events);
    NothingRecorded(spec, Size(spec, 0));
    RecordedBound(spec, limits, Last(spec, limits, NewWorld(spec), events).record.run);
  }

  // ------------------------------------------------------------------ any number of decisions, and a lost id

  lemma {:induction false} Followed(spec: Spec, limits: Limits, w: World, a: seq<Event>, b: seq<Event>)
    requires Occurs(spec, limits, w, a) && Occurs(spec, limits, Last(spec, limits, w, a), b)
    ensures Occurs(spec, limits, w, a + b)
    ensures Last(spec, limits, w, a + b) == Last(spec, limits, Last(spec, limits, w, a), b)
    ensures Made(a + b) == Made(a) + Made(b)
    decreases |a|
  {
    if a == [] {
      assert a + b == b;
    } else {
      assert (a + b)[1..] == a[1..] + b;
      Followed(spec, limits, Next(spec, limits, w, a[0]), a[1..], b);
    }
  }

  /** What a new run has left without follow-ups. */
  function FirstPlanDecisions(spec: Spec, limits: Limits): nat {
    if limits.sessions == 0 then 0 else limits.decisions * (limits.sessions * Size(spec, 0) + limits.repairs)
  }

  lemma FewerLeft(spec: Spec, limits: Limits, w: World)
    requires SoundRecord(spec, limits, w.record) && Listed(w.record) && w.record.run.followUps == 0
    ensures Sound(spec, limits.(followUps := 0), w.record.run)
    ensures Remaining(spec, limits.(followUps := 0), w.record.run) <= Potential(spec, limits, w)
  {
    EffectiveSound(spec, limits, w);
    FewerFollowUps(spec, Effective(limits, w), w.record.run, 0);
  }

  lemma FirstFile(spec: Spec, limits: Limits, r: Record)
    requires r == NewWorld(spec).record
    ensures SoundRecord(spec, limits, r) && Listed(r) && OnPlan(spec, 0, r.plan) && r.counted == 0
    ensures r.run == NewGeneration(spec) && r.run.followUps == 0 && Idle(r.run) && !r.run.delivering && !r.run.granted
    ensures At(spec, r.run, 0) == UNTOUCHED
  {
    NewSteady(spec, limits);
    PlanIsOnPlan(spec, 0);
    AllListed(spec, r);
  }

  lemma FirstPlanLeft(spec: Spec, limits: Limits)
    requires Linted(spec)
    ensures Sound(spec, limits.(followUps := 0), NewGeneration(spec))
    ensures Remaining(spec, limits.(followUps := 0), NewGeneration(spec)) == FirstPlanDecisions(spec, limits)
  {
    NewRemaining(spec, limits.(followUps := 0));
  }

  lemma FirstFileLeaves(spec: Spec, limits: Limits, w: World)
    requires Linted(spec) && w.record == NewWorld(spec).record
    ensures SoundRecord(spec, limits, w.record) && Potential(spec, limits, w) >= FirstPlanDecisions(spec, limits)
  {
    FirstFile(spec, limits, w.record);
    FewerLeft(spec, limits, w);
    FirstPlanLeft(spec, limits);
  }

  /** The first file of a run, locked when the run is at rest, lets all its decisions happen again. */
  lemma OnceMore(spec: Spec, limits: Limits, w: World) returns (events: seq<Event>)
    requires Linted(spec) && Steady(spec, limits, w) && !w.held && NewWorld(spec).record in w.copies
    ensures Occurs(spec, limits, w, events) && Made(events) >= FirstPlanDecisions(spec, limits)
  {
    var copy := NewWorld(spec).record;
    NextSteady(spec, limits, w, Lock(copy));
    FirstFileLeaves(spec, limits, Next(spec, limits, w, Lock(copy)));
    events := PotentialReached(spec, limits, Next(spec, limits, w, Lock(copy)));
    Chained(spec, limits, w, Lock(copy), events);
    FollowedMade(Lock(copy), events);
    events := [Lock(copy)] + events;
  }

  lemma FollowedMade(e: Event, events: seq<Event>)
    ensures Made([e] + events) == (if e == Work(Decide) then 1 else 0) + Made(events)
  {
    assert ([e] + events)[1..] == events;
  }

  /** Whoever holds the lock leaves. */
  lemma LeftAlone(spec: Spec, limits: Limits, w: World, events: seq<Event>) returns (more: seq<Event>)
    requires Occurs(spec, limits, w, events)
    ensures Occurs(spec, limits, w, more) && Made(more) == Made(events) && !Last(spec, limits, w, more).held
    ensures w.copies <= Last(spec, limits, w, more).copies
  {
    more := events;
    if Last(spec, limits, w, events).held {
      assert [Quit][1..] == [];
      Followed(spec, limits, w, events, [Quit]);
      more := events + [Quit];
    }
    CopiesKept(spec, limits, w, more);
  }

  /** Processes that keep working from the first file make any number of decisions. */
  lemma {:induction false} NoBoundOnDecisions(spec: Spec, limits: Limits, n: nat) returns (events: seq<Event>)
    requires Linted(spec)
    ensures Occurs(spec, limits, NewWorld(spec), events) && Made(events) >= n * FirstPlanDecisions(spec, limits)
    ensures !Last(spec, limits, NewWorld(spec), events).held
    ensures NewWorld(spec).record in Last(spec, limits, NewWorld(spec), events).copies
  {
    NewSteady(spec, limits);
    if n == 0 {
      events := [Read];
      assert events[1..] == [];
    } else {
      events := NoBoundOnDecisions(spec, limits, n - 1);
      AlwaysSteady(spec, limits, NewWorld(spec), events);
      var w := Last(spec, limits, NewWorld(spec), events);
      var more := OnceMore(spec, limits, w);
      more := LeftAlone(spec, limits, w, more);
      Followed(spec, limits, NewWorld(spec), events, more);
      events := events + more;
      assert n * FirstPlanDecisions(spec, limits) == (n - 1) * FirstPlanDecisions(spec, limits) + FirstPlanDecisions(spec, limits);
    }
  }

  /** With one session, one decision, no follow-up and no repair, a specification without messages and
      requirements has three decisions to make; here it makes six. */
  lemma BoundBroken() returns (events: seq<Event>)
    ensures var spec, limits := Spec([], []), Limits(1, 1, 0, 0);
      && Occurs(spec, limits, NewWorld(spec), events) && Made(events) >= 6
      && limits.decisions * (limits.sessions * (Size(spec, 0) + limits.followUps) + limits.repairs) == 3
  {
    var spec, limits := Spec([], []), Limits(1, 1, 0, 0);
    events := NoBoundOnDecisions(spec, limits, 2);
  }

  lemma {:induction false} CopiesKept(spec: Spec, limits: Limits, w: World, events: seq<Event>)
    requires Occurs(spec, limits, w, events)
    ensures w.copies <= Last(spec, limits, w, events).copies
    decreases |events|
  {
    if events != [] { CopiesKept(spec, limits, Next(spec, limits, w, events[0]), events[1..]); }
  }

  lemma FirstSession(spec: Spec, limits: Limits, w: World) returns (w': World)
    requires Linted(spec) && limits.sessions >= 2 && limits.followUps >= 1 && Unspoiled(spec, limits, w)
    requires w.held && w.longest == |w.record.plan| && Listed(w.record) && w.record.counted == 0 && Idle(w.record.run)
    requires !w.record.run.delivering && !w.record.run.granted && At(spec, w.record.run, 0) == UNTOUCHED
    ensures Allowed(spec, limits, w, Work(OpenSession(0, false))) && w' == Next(spec, limits, w, Work(OpenSession(0, false)))
    ensures Unspoiled(spec, limits, w') && Allowed(spec, limits, w', Cut(2))
  {
    var g := w.record.run;
    w' := Next(spec, limits, w, Work(OpenSession(0, false)));
    NextUnspoiled(spec, limits, w, Work(OpenSession(0, false)));
    ListedStill(spec, limits, w.record, OpenSession(0, false));
    Updated(spec, g, 0, At(spec, g, 0).(sessions := 1, status := Running), w'.record.run);
  }

  /** A run in which a follow-up's id comes twice. */
  lemma LostFollowUp(spec: Spec, limits: Limits) returns (events: seq<Event>)
    requires Linted(spec) && limits.sessions >= 2 && limits.followUps >= 1
    ensures Occurs(spec, limits, NewWorld(spec), events)
    ensures !Distinct(Last(spec, limits, NewWorld(spec), events).record.plan)
  {
    var w0 := NewWorld(spec);
    NewUnspoiled(spec, limits);
    FirstFile(spec, limits, w0.record);
    NextUnspoiled(spec, limits, w0, Read);
    NextUnspoiled(spec, limits, Next(spec, limits, w0, Read), Lock(w0.record));
    var w := w0.(copies := {w0.record}, held := true);
    assert w == Next(spec, limits, Next(spec, limits, w0, Read), Lock(w0.record));
    var w1 := FirstSession(spec, limits, w);
    events := RepeatsId(spec, limits, w1);
    Chained(spec, limits, w1, Cut(2), events);
    Chained(spec, limits, w, Work(OpenSession(0, false)), [Cut(2)] + events);
    events := [Work(OpenSession(0, false))] + ([Cut(2)] + events);
    LockTaken(spec, limits, w0, events);
    events := [Read] + ([Lock(w0.record)] + events);
  }

  // ------------------------------------------------------------------ at every moment of every history

  /** Whatever files its processes worked from and wherever they were interrupted, a run recorded as a
      success passed its whole plan and delivered it, each requirement claimed once. */
  lemma SuccessAlwaysMeans(spec: Spec, limits: Limits, events: seq<Event>)
    requires Linted(spec) && Occurs(spec, limits, NewWorld(spec), events)
    requires Last(spec, limits, NewWorld(spec), events).record.run.succeeded
    ensures var g := Last(spec, limits, NewWorld(spec), events).record.run;
      && Covers(spec, g) && AllPassed(spec, g) && g.delivered && g.checks == Some(true)
      && multiset(Concat(Claimed(spec, g))) == multiset(spec.requirements)
  {
    NewSteady(spec, limits);
    AlwaysSteady(spec, limits, NewWorld(spec), events);
    SuccessMeans(spec, limits, Last(spec, limits, NewWorld(spec), events).record.run);
  }

  /** At every moment the tasks passed are a prefix of the plan. */
  lemma PassedAlwaysPrefix(spec: Spec, limits: Limits, events: seq<Event>) returns (n: nat)
    requires Linted(spec) && Occurs(spec, limits, NewWorld(spec), events)
    ensures var g := Last(spec, limits, NewWorld(spec), events).record.run;
      && Covers(spec, g) && n <= Places(spec, g)
      && forall i | 0 <= i < Places(spec, g) :: At(spec, g, i).status == Passed <==> i < n
  {
    NewSteady(spec, limits);
    AlwaysSteady(spec, limits, NewWorld(spec), events);
    n := PassedArePrefix(spec, limits, Last(spec, limits, NewWorld(spec), events).record.run);
  }

  // ------------------------------------------------------------------ one process's work

  /** A process that took the lock and worked in the way its record lets it: with all that was made
      before it, its decisions stay within the bound beyond what the record had been made to forget. */
  lemma ProcessWithinBound(spec: Spec, limits: Limits, events: seq<Event>, steps: seq<Step>)
    requires Linted(spec) && Occurs(spec, limits, NewWorld(spec), events) && Steady(spec, limits, NewWorld(spec))
    requires var w := Last(spec, limits, NewWorld(spec), events);
      w.held && Listed(w.record) && Happens(spec, Effective(limits, w), w.record.run, steps)
    ensures Made(events) + DecisionsMade(steps) <= Forgotten(spec, limits, NewWorld(spec), events) +
      limits.decisions * (limits.sessions * (Size(spec, 0) + limits.followUps) + limits.repairs)
  {
    DecisionsAccounted(spec, limits, NewWorld(spec), events);
    NothingRecorded(spec, Size(spec, 0));
    var w := Last(spec, limits, NewWorld(spec), events);
    EffectiveSound(spec, limits, w);
    DecisionsRecorded(spec, Effective(limits, w), w.record.run, steps);
    var g := Final(spec, Effective(limits, w), w.record.run, steps);
    SoundWith(spec, Effective(limits, w), g, limits.followUps);
    RecordedBound(spec, limits, g);
  }
}
