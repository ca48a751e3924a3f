/** The serial plan: its compilation from a specification, follow-up surgery, and claim checking. */
module Plan {
  import opened Outcomes
  import opened Sequences

  /** The strings "bootstrap", "shared-wire", "message:<id>", "requirements:<n>", "followup:<n>"
      and "final-integration"; distinct values are distinct strings. */
  datatype TaskId =
    | Bootstrap
    | SharedWire
    | Message(id: string)
    | Batch(n: nat)
    | FollowUp(n: nat)
    | FinalIntegration

  datatype Task = Task(id: TaskId, requirements: seq<string>, dependsOn: Option<TaskId>)

  datatype Status = Waiting | Running | Passed | GaveUp

  /** The identifiers a plan is compiled from, in specification order. */
  datatype Spec = Spec(messages: seq<string>, requirements: seq<string>)

  /** What linting guarantees before a plan is compiled. */
  predicate Linted(spec: Spec) {
    Unique(spec.messages) && Unique(spec.requirements)
  }

  // ------------------------------------------------------------------ the plan's shape

  function Min(a: nat, b: nat): nat { if a <= b then a else b }

  /** How many batches n requirements make: all full but perhaps the last. */
  function BatchCount(n: nat): nat {
    if n <= 12 then Min(n, 1) else 1 + BatchCount(n - 12)
  }

  lemma {:induction false} BatchCountBounds(n: nat)
    ensures 12 * BatchCount(n) >= n
    ensures BatchCount(n) > 0 ==> 12 * (BatchCount(n) - 1) < n
  {
    if n > 12 { BatchCountBounds(n - 12); }
  }

  /** The requirements of the i-th batch. */
  function BatchAt(reqs: seq<string>, i: nat): seq<string>
    requires i < BatchCount(|reqs|)
  {
    BatchCountBounds(|reqs|);
    reqs[12 * i..Min(12 * i + 12, |reqs|)]
  }

  function Size(spec: Spec, followUps: nat): nat {
    3 + |spec.messages| + BatchCount(|spec.requirements|) + followUps
  }

  /** Which task stands at each place after the given number of follow-ups. */
  function IdAt(spec: Spec, followUps: nat, i: nat): TaskId
    requires i < Size(spec, followUps)
  {
    var m, b := |spec.messages|, BatchCount(|spec.requirements|);
    if i == 0 then Bootstrap
    else if i == 1 then SharedWire
    else if i < 2 + m then Message(spec.messages[i - 2])
    else if i < 2 + m + b then Batch(i - 1 - m)
    else if i < 2 + m + b + followUps then FollowUp(i - 1 - m - b)
    else FinalIntegration
  }

  /** Its primary requirements: a batch's own ones, nothing for the other kinds. */
  function PrimaryAt(spec: Spec, followUps: nat, i: nat): seq<string>
    requires i < Size(spec, followUps)
  {
    var m, b := |spec.messages|, BatchCount(|spec.requirements|);
    if 2 + m <= i < 2 + m + b then BatchAt(spec.requirements, i - 2 - m) else []
  }

  function TaskAt(spec: Spec, followUps: nat, i: nat): Task
    requires i < Size(spec, followUps)
  {
    Task(IdAt(spec, followUps, i), PrimaryAt(spec, followUps, i), if i == 0 then None else Some(IdAt(spec, followUps, i - 1)))
  }

  /** The one plan a run can have after the given number of follow-ups. */
  function PlanOf(spec: Spec, followUps: nat): seq<Task> {
    seq(Size(spec, followUps), i requires 0 <= i < Size(spec, followUps) => TaskAt(spec, followUps, i))
  }

  // ------------------------------------------------------------------ compilation

  function Add(tasks: seq<Task>, id: TaskId, requirements: seq<string>): seq<Task> {
    tasks + [Task(id, requirements, if |tasks| == 0 then None else Some(tasks[|tasks| - 1].id))]
  }

  /** The tasks added so far are the first ones of the plan. */
  predicate Started(spec: Spec, tasks: seq<Task>) {
    |tasks| <= Size(spec, 0) && forall i | 0 <= i < |tasks| :: tasks[i] == TaskAt(spec, 0, i)
  }

  lemma AddNext(spec: Spec, tasks: seq<Task>, id: TaskId, requirements: seq<string>)
    requires Started(spec, tasks) && |tasks| < Size(spec, 0)
    requires id == IdAt(spec, 0, |tasks|) && requirements == PrimaryAt(spec, 0, |tasks|)
    ensures Started(spec, Add(tasks, id, requirements))
  {
  }

  lemma BatchStep(reqs: seq<string>, b: nat)
    requires 12 * b < |reqs|
    ensures b < BatchCount(|reqs|)
    ensures 12 * b / 12 + 1 == b + 1
    ensures reqs[..Min(12 * (b + 1), |reqs|)] == reqs[..12 * b] + BatchAt(reqs, b)
  {
    BatchCountBounds(|reqs|);
  }

  lemma BatchEnd(n: nat, b: nat)
    requires 12 * b >= n && b <= BatchCount(n)
    ensures b == BatchCount(n)
  {
    BatchCountBounds(n);
  }

  /** Each requirement put in a batch so far, and no other, is assigned to the task of its batch. */
  ghost predicate Assigned(primary: map<string, TaskId>, reqs: seq<string>, b: nat)
    requires b <= BatchCount(|reqs|)
  {
    && (forall r :: r in primary <==> r in reqs[..Min(12 * b, |reqs|)])
    && (forall r | r in primary :: exists i :: 0 <= i < b && primary[r] == Batch(i + 1) && r in BatchAt(reqs, i))
  }

  lemma AssignBatch(primary: map<string, TaskId>, reqs: seq<string>, b: nat)
    requires 12 * b < |reqs| && b < BatchCount(|reqs|) && Assigned(primary, reqs, b)
    ensures Assigned(primary + map r | r in BatchAt(reqs, b) :: Batch(b + 1), reqs, b + 1)
  {
    BatchStep(reqs, b);
  }

  method AddMessages(spec: Spec, tasks: seq<Task>) returns (more: seq<Task>)
    requires Started(spec, tasks) && |tasks| == 2
    ensures Started(spec, more) && |more| == 2 + |spec.messages|
  {
    more := tasks;
    for m := 0 to |spec.messages|
      invariant Started(spec, more) && |more| == 2 + m
    {
      AddNext(spec, more, Message(spec.messages[m]), []);
      more := Add(more, Message(spec.messages[m]), []);
    }
  }

  /** Cuts the requirements into batches of at most twelve, in order, and records each one's task. */
  method AddBatches(spec: Spec, tasks: seq<Task>) returns (more: seq<Task>, primary: map<string, TaskId>)
    requires Started(spec, tasks) && |tasks| == 2 + |spec.messages|
    ensures Started(spec, more) && |more| == Size(spec, 0) - 1
    ensures Assigned(primary, spec.requirements, BatchCount(|spec.requirements|))
  {
    var reqs := spec.requirements;
    more, primary := tasks, map[];
    ghost var b := 0;
    var start := 0;
    while start < |reqs|
      invariant start == 12 * b && b <= BatchCount(|reqs|)
      invariant Started(spec, more) && |more| == 2 + |spec.messages| + b
      invariant Assigned(primary, reqs, b)
    {
      BatchStep(reqs, b);
      var batch := reqs[start..Min(start + 12, |reqs|)];
      var id := Batch(start / 12 + 1);
      AddNext(spec, more, id, batch);
      AssignBatch(primary, reqs, b);
      more := Add(more, id, batch);
      primary := primary + map r | r in batch :: id;
      start := start + 12;
      b := b + 1;
    }
    BatchEnd(|reqs|, b);
  }

  /** Bootstrap, shared wire, one task a message, the requirement batches, final integration. */
  method CompilePlan(spec: Spec) returns (tasks: seq<Task>, primary: map<string, TaskId>)
    ensures tasks == PlanOf(spec, 0)
    ensures Assigned(primary, spec.requirements, BatchCount(|spec.requirements|))
  {
    AddNext(spec, [], Bootstrap, []);
    tasks := Add([], Bootstrap, []);
    AddNext(spec, tasks, SharedWire, []);
    tasks := Add(tasks, SharedWire, []);
    tasks := AddMessages(spec, tasks);
    tasks, primary := AddBatches(spec, tasks);
    AddNext(spec, tasks, FinalIntegration, []);
    tasks := Add(tasks, FinalIntegration, []);
  }

  function Inserted(plan: seq<Task>, number: nat): seq<Task>
    requires |plan| >= 2
  {
    plan[..|plan| - 1] + [Task(FollowUp(number), [], Some(plan[|plan| - 2].id))] + plan[|plan| - 1..]
  }

  function Relinked(plan: seq<Task>): seq<Task> {
    seq(|plan|, i requires 0 <= i < |plan| => plan[i].(dependsOn := if i == 0 then None else Some(plan[i - 1].id)))
  }

  /** Renumbers every dependency to the task before. */
  method Relink(plan: seq<Task>) returns (changed: seq<Task>)
    ensures changed == Relinked(plan)
  {
    changed := plan;
    for i := 0 to |plan|
      invariant |changed| == |plan|
      invariant forall j | 0 <= j < i :: changed[j] == Relinked(plan)[j]
      invariant forall j | i <= j < |plan| :: changed[j] == plan[j]
    {
      changed := changed[i := changed[i].(dependsOn := if i == 0 then None else Some(changed[i - 1].id))];
    }
  }

  // ------------------------------------------------------------------ what every plan keeps

  lemma PlanElement(spec: Spec, k: nat, i: nat)
    requires i < Size(spec, k)
    ensures |PlanOf(spec, k)| == Size(spec, k) && PlanOf(spec, k)[i] == TaskAt(spec, k, i)
  {
  }

  lemma InsertedElement(spec: Spec, k: nat, i: nat)
    requires i <= Size(spec, k)
    ensures |PlanOf(spec, k)| >= 2 && |Inserted(PlanOf(spec, k), k + 1)| == Size(spec, k + 1)
    ensures Inserted(PlanOf(spec, k), k + 1)[i].id == IdAt(spec, k + 1, i)
    ensures Inserted(PlanOf(spec, k), k + 1)[i].requirements == PrimaryAt(spec, k + 1, i)
  {
  }

  /** The tasks stand where the plan has them, whatever their dependencies. */
  predicate InPlace(spec: Spec, k: nat, tasks: seq<Task>) {
    && |tasks| == Size(spec, k)
    && forall i | 0 <= i < |tasks| :: tasks[i].id == IdAt(spec, k, i) && tasks[i].requirements == PrimaryAt(spec, k, i)
  }

  lemma RelinkedElement(spec: Spec, k: nat, tasks: seq<Task>, i: nat)
    requires i < |tasks| == Size(spec, k)
    requires tasks[i].id == IdAt(spec, k, i) && tasks[i].requirements == PrimaryAt(spec, k, i)
    requires i > 0 ==> tasks[i - 1].id == IdAt(spec, k, i - 1)
    ensures Relinked(tasks)[i] == TaskAt(spec, k, i)
  {
  }

  lemma RelinkedPlan(spec: Spec, k: nat, tasks: seq<Task>)
    requires InPlace(spec, k, tasks)
    ensures Relinked(tasks) == PlanOf(spec, k)
  {
    forall i | 0 <= i < |tasks| ensures |PlanOf(spec, k)| == |tasks| && Relinked(tasks)[i] == PlanOf(spec, k)[i] {
      RelinkedElement(spec, k, tasks, i);
      PlanElement(spec, k, i);
    }
    PlanElement(spec, k, 0);
  }

  /** Follow-up surgery turns the plan with k follow-ups into the plan with k + 1. */
  lemma FollowUpExtends(spec: Spec, k: nat)
    ensures |PlanOf(spec, k)| >= 2
    ensures Relinked(Inserted(PlanOf(spec, k), k + 1)) == PlanOf(spec, k + 1)
  {
    InsertedElement(spec, k, 0);
    var tasks := Inserted(PlanOf(spec, k), k + 1);
    forall i | 0 <= i < |tasks|
      ensures tasks[i].id == IdAt(spec, k + 1, i) && tasks[i].requirements == PrimaryAt(spec, k + 1, i)
    {
      InsertedElement(spec, k, i);
    }
    RelinkedPlan(spec, k + 1, tasks);
  }

  /** The active plan with a follow-up before its end, every dependency renumbered. */
  method Extend(ghost spec: Spec, plan: seq<Task>, followUps: nat) returns (changed: seq<Task>)
    requires plan == PlanOf(spec, followUps)
    ensures changed == PlanOf(spec, followUps + 1)
  {
    FollowUpExtends(spec, followUps);
    changed := Relink(Inserted(plan, followUps + 1));
  }

  predicate Chain(plan: seq<Task>) {
    forall i | 0 <= i < |plan| :: plan[i].dependsOn == if i == 0 then None else Some(plan[i - 1].id)
  }

  function Rank(id: TaskId): nat {
    match id
    case Bootstrap => 0
    case SharedWire => 1
    case Message(_) => 2
    case Batch(_) => 3
    case FollowUp(_) => 4
    case FinalIntegration => 5
  }

  /** The kinds of task come in a fixed order and no task appears twice. */
  lemma PlanOrdered(spec: Spec, k: nat, i: nat, j: nat)
    requires Linted(spec) && i < j < Size(spec, k)
    ensures Rank(PlanOf(spec, k)[i].id) <= Rank(PlanOf(spec, k)[j].id)
    ensures PlanOf(spec, k)[i].id != PlanOf(spec, k)[j].id
  {
  }

  /** The plan is one chain from bootstrap to final integration, its follow-ups in the order
      requested just before the end. */
  lemma PlanShape(spec: Spec, k: nat)
    ensures Chain(PlanOf(spec, k)) && |PlanOf(spec, k)| == Size(spec, k)
    ensures PlanOf(spec, k)[0].id == Bootstrap && PlanOf(spec, k)[Size(spec, k) - 1].id == FinalIntegration
    ensures forall n | 1 <= n <= k :: PlanOf(spec, k)[Size(spec, n) - 2].id == FollowUp(n)
  {
    PlanElement(spec, k, 0);
    PlanElement(spec, k, Size(spec, k) - 1);
    forall i | 0 <= i < Size(spec, k)
      ensures PlanOf(spec, k)[i].dependsOn == if i == 0 then None else Some(PlanOf(spec, k)[i - 1].id)
    {
    }
    forall n | 1 <= n <= k
      ensures PlanOf(spec, k)[Size(spec, n) - 2].id == FollowUp(n)
    {
    }
  }

  function Concat(parts: seq<seq<string>>): seq<string> {
    if |parts| == 0 then [] else Concat(parts[..|parts| - 1]) + parts[|parts| - 1]
  }

  function Primaries(plan: seq<Task>): seq<seq<string>> {
    seq(|plan|, i requires 0 <= i < |plan| => plan[i].requirements)
  }

  /** How many requirements the first n tasks of the plan take. */
  function Taken(spec: Spec, n: nat): nat {
    if n <= 2 + |spec.messages| then 0 else Min(12 * (n - 2 - |spec.messages|), |spec.requirements|)
  }

  lemma NextTaskTakes(spec: Spec, k: nat, n: nat)
    requires n < Size(spec, k)
    ensures spec.requirements[..Taken(spec, n)] + PrimaryAt(spec, k, n) == spec.requirements[..Taken(spec, n + 1)]
  {
    BatchCountBounds(|spec.requirements|);
  }

  lemma PrimariesPrefix(plan: seq<Task>, n: nat)
    requires 0 < n <= |plan|
    ensures |Primaries(plan[..n])| == n && Primaries(plan[..n])[n - 1] == plan[n - 1].requirements
    ensures Primaries(plan[..n])[..n - 1] == Primaries(plan[..n - 1])
  {
  }

  lemma {:induction false} FirstTasksTake(spec: Spec, k: nat, n: nat)
    requires n <= Size(spec, k)
    ensures Concat(Primaries(PlanOf(spec, k)[..n])) == spec.requirements[..Taken(spec, n)]
  {
    if n > 0 {
      var parts := Primaries(PlanOf(spec, k)[..n]);
      PlanElement(spec, k, n - 1);
      FirstTasksTake(spec, k, n - 1);
      PrimariesPrefix(PlanOf(spec, k), n);
      NextTaskTakes(spec, k, n - 1);
    }
  }

  /** The tasks' primary requirements, in plan order, are exactly the specification's. */
  lemma RequirementsPartitioned(spec: Spec, k: nat)
    ensures Concat(Primaries(PlanOf(spec, k))) == spec.requirements
  {
    BatchCountBounds(|spec.requirements|);
    FirstTasksTake(spec, k, Size(spec, k));
    assert PlanOf(spec, k)[..Size(spec, k)] == PlanOf(spec, k);
    assert spec.requirements[..|spec.requirements|] == spec.requirements;
  }

  /** No task has more than twelve primary requirements, and exactly the batches have some. */
  lemma BatchesBounded(spec: Spec, k: nat, i: nat)
    requires i < Size(spec, k)
    ensures |PlanOf(spec, k)[i].requirements| <= 12
    ensures PlanOf(spec, k)[i].id.Batch? <==> PlanOf(spec, k)[i].requirements != []
  {
    BatchCountBounds(|spec.requirements|);
    PlanElement(spec, k, i);
  }

  // ------------------------------------------------------------------ claims

  datatype ClaimStatus = Implemented | AlreadyPresent | NotApplicable | OtherStatus

  /** A claim at finish; `sourced` and `located` say whether its references are given and exist. */
  datatype Claim = Claim(id: string, status: ClaimStatus, reasoned: bool, sourced: bool, located: bool)

  function Ids(claims: seq<Claim>): seq<string> {
    seq(|claims|, i requires 0 <= i < |claims| => claims[i].id)
  }

  predicate Grounded(c: Claim) {
    c.status != OtherStatus && c.reasoned && if c.status == NotApplicable then c.sourced else c.located
  }

  /** The acceptance test on a finish: distinct ids, exactly the primary ones, each grounded. */
  predicate ValidClaims(task: Task, claims: seq<Claim>) {
    && |Ids(claims)| == |Elements(Ids(claims))|
    && Elements(Ids(claims)) == Elements(task.requirements)
    && forall i | 0 <= i < |claims| :: Grounded(claims[i])
  }

  lemma {:induction false} DistinctIffFullSize(xs: seq<string>)
    ensures |Elements(xs)| <= |xs|
    ensures |Elements(xs)| == |xs| <==> Unique(xs)
  {
    if |xs| > 0 {
      var rest, x := xs[..|xs| - 1], xs[|xs| - 1];
      DistinctIffFullSize(rest);
      assert xs == rest + [x];
      assert Elements(xs) == Elements(rest) + {x};
      if x in rest {
        assert Elements(xs) == Elements(rest);
        var i :| 0 <= i < |rest| && rest[i] == x;
        assert xs[i] == xs[|xs| - 1];
      } else {
        assert Unique(xs) <==> Unique(rest);
      }
    }
  }

  /** Sequences without repeats and with the same elements are rearrangements of each other. */
  lemma {:induction false} SameElementsSameCounts(xs: seq<string>, ys: seq<string>)
    requires Unique(xs) && Unique(ys) && Elements(xs) == Elements(ys)
    ensures multiset(xs) == multiset(ys)
  {
    forall x
      ensures multiset(xs)[x] == multiset(ys)[x]
    {
      UniqueCount(xs, x);
      UniqueCount(ys, x);
      assert x in Elements(xs) <==> x in Elements(ys);
    }
  }

  lemma {:induction false} UniqueCount(xs: seq<string>, x: string)
    requires Unique(xs)
    ensures multiset(xs)[x] == if x in xs then 1 else 0
  {
    if |xs| > 0 {
      var rest := xs[..|xs| - 1];
      assert xs == rest + [xs[|xs| - 1]];
      UniqueCount(rest, x);
    }
  }

  /** A task's claims pass exactly when they are grounded and name each primary requirement once. */
  lemma ValidClaimsCoverOnceIff(task: Task, claims: seq<Claim>)
    requires Unique(task.requirements)
    ensures ValidClaims(task, claims) <==>
      && multiset(Ids(claims)) == multiset(task.requirements)
      && forall i | 0 <= i < |claims| ::
           && claims[i].reasoned
           && (|| (claims[i].status == NotApplicable && claims[i].sourced)
               || ((claims[i].status == Implemented || claims[i].status == AlreadyPresent) && claims[i].located))
  {
    DistinctIffFullSize(Ids(claims));
    if ValidClaims(task, claims) {
      SameElementsSameCounts(Ids(claims), task.requirements);
    }
    if multiset(Ids(claims)) == multiset(task.requirements) {
      forall x
        ensures x in Ids(claims) <==> x in task.requirements
      {
        assert x in multiset(Ids(claims)) <==> x in multiset(task.requirements);
      }
      CountsUnique(Ids(claims), task.requirements);
    }
  }

  lemma CountsUnique(xs: seq<string>, ys: seq<string>)
    requires multiset(xs) == multiset(ys) && Unique(ys)
    ensures Unique(xs)
  {
    forall i, j | 0 <= i < j < |xs|
      ensures xs[i] != xs[j]
    {
      if xs[i] == xs[j] {
        assert xs == xs[..i] + [xs[i]] + xs[i + 1..j] + [xs[j]] + xs[j + 1..];
        assert multiset(xs)[xs[i]] >= 2;
        UniqueCount(ys, xs[i]);
        assert false;
      }
    }
  }
}
