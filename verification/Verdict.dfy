/** Two judgements of one verification: the runner's verdict over all builds, and the report's status
    for each requirement. */
module Verdict {
  import opened Outcomes
  import opened Sequences

  datatype Check = Check(id: string, required: bool, requirements: set<string>)

  // ------------------------------------------------------------------ the checker

  /** How one check ended, and what its single structured result said, if there was one. */
  datatype Outcome = TimedOut | Exited(returncode: int, said: Option<bool>)

  datatype Row = Row(id: string, required: bool, passed: bool, returncode: Option<int>)

  datatype Supervision = Supervision(passed: bool, rows: seq<Row>)

  function RowOf(c: Check, outcome: Outcome): Row {
    match outcome
    case TimedOut => Row(c.id, c.required, false, None)
    case Exited(returncode, said) => Row(c.id, c.required, said == Some(true) && returncode == 0, Some(returncode))
  }

  function RowsOf(checks: seq<Check>, outcomes: string -> Outcome): seq<Row> {
    seq(|checks|, i requires 0 <= i < |checks| => RowOf(checks[i], outcomes(checks[i].id)))
  }

  predicate RequiredPass(rows: seq<Row>) { forall i | 0 <= i < |rows| :: rows[i].required ==> rows[i].passed }

  /** Runs every check and says whether all required ones passed; a zero exit alone passes none. */
  method Supervise(checks: seq<Check>, outcomes: string -> Outcome) returns (s: Supervision)
    ensures |s.rows| == |checks|
    ensures forall i | 0 <= i < |checks| ::
      var outcome := outcomes(checks[i].id);
      s.rows[i] == Row(checks[i].id, checks[i].required, outcome == Exited(0, Some(true)),
                       if outcome.TimedOut? then None else Some(outcome.returncode))
    ensures s.passed <==> |checks| > 0 && forall i | 0 <= i < |checks| && checks[i].required :: outcomes(checks[i].id) == Exited(0, Some(true))
    ensures s.rows == RowsOf(checks, outcomes)
    ensures s.passed <==> |checks| > 0 && RequiredPass(s.rows)
  {
    var rows: seq<Row> := [];
    for i := 0 to |checks|
      invariant |rows| == i && forall j | 0 <= j < i :: rows[j] == RowOf(checks[j], outcomes(checks[j].id))
    {
      var row := Row(checks[i].id, checks[i].required, false, None);
      match outcomes(checks[i].id) {
        case TimedOut =>
        case Exited(returncode, said) =>
          row := row.(returncode := Some(returncode));
          if said.Some? {
            row := row.(passed := said.value && returncode == 0);
          }
      }
      rows := rows + [row];
    }
    s := Supervision(|rows| > 0 && RequiredPass(rows), rows);
  }

  // ------------------------------------------------------------------ the verdict

  datatype Server = Server(returncode: int, earlyExit: Option<int>, stopTimeout: bool, sanitizer: bool, truncated: bool)

  predicate IsClean(s: Option<Server>) {
    && s.Some? && s.value.returncode == 0 && s.value.earlyExit == None
    && !s.value.stopTimeout && !s.value.sanitizer && !s.value.truncated
  }

  /** What one build's checker printed and how its server ended; no rows when nothing was printed. */
  datatype Detail = Detail(passed: bool, rows: seq<Row>, server: Option<Server>)

  datatype Execution = Execution(returncode: Option<int>, timedOut: bool)

  datatype Variant = Variant(build: string, passed: bool, execution: Execution, detail: Detail)

  datatype Verification = Verification(passed: bool, variants: seq<Variant>)

  function Ids(checks: seq<Check>): seq<string> {
    seq(|checks|, i requires 0 <= i < |checks| => checks[i].id)
  }

  function RowIds(rows: seq<Row>): seq<string> { seq(|rows|, i requires 0 <= i < |rows| => rows[i].id) }

  function Mandatory(checks: seq<Check>): set<string> { set c | c in checks && c.required :: c.id }

  predicate Passes(checks: seq<Check>, execution: Execution, detail: Detail) {
    && Mandatory(checks) != {}
    && RowIds(detail.rows) == Ids(checks)
    && (forall i | 0 <= i < |detail.rows| ::
          detail.rows[i].id in Mandatory(checks) ==> detail.rows[i].passed && detail.rows[i].returncode == Some(0))
    && detail.passed && execution.returncode == Some(0) && !execution.timedOut
    && IsClean(detail.server)
  }

  /** A build's run: how the checker ended and what is on record. */
  type Runs = string -> (Execution, Detail)

  function VariantOf(checks: seq<Check>, build: string, runs: Runs): Variant {
    var (execution, detail) := runs(build);
    var passed := Passes(checks, execution, detail);
    Variant(build, passed, execution, detail.(passed := passed))
  }

  function Variants(builds: seq<string>, checks: seq<Check>, runs: Runs): seq<Variant> {
    seq(|builds|, i requires 0 <= i < |builds| => VariantOf(checks, builds[i], runs))
  }

  predicate VerificationPassed(builds: seq<string>, checks: seq<Check>, runs: Runs) {
    |builds| > 0 && forall i | 0 <= i < |builds| :: VariantOf(checks, builds[i], runs).passed
  }

  /** A build passes exactly when some check is required, the rows are those of the checks in order, every row
      under the name of a required check passed with exit 0, the checker exited 0 in time and said passed, and
      the server exited 0, had not exited early, needed no kill, and left a log without a sanitizer's report
      and without a cut. */
  lemma PassesIff(checks: seq<Check>, execution: Execution, detail: Detail)
    ensures Passes(checks, execution, detail) <==>
      && (exists i :: 0 <= i < |checks| && checks[i].required)
      && |detail.rows| == |checks| && (forall i | 0 <= i < |checks| :: detail.rows[i].id == checks[i].id)
      && (forall i, j | 0 <= i < |checks| && checks[i].required && 0 <= j < |checks| && checks[j].id == checks[i].id ::
            detail.rows[j].passed && detail.rows[j].returncode == Some(0))
      && detail.passed && execution == Execution(Some(0), false)
      && detail.server == Some(Server(0, None, false, false, false))
  {
    assert RowIds(detail.rows) == Ids(checks) <==>
      |detail.rows| == |checks| && forall i | 0 <= i < |checks| :: detail.rows[i].id == checks[i].id by {
      assert |RowIds(detail.rows)| == |detail.rows| && |Ids(checks)| == |checks|;
      if RowIds(detail.rows) == Ids(checks) {
        forall i | 0 <= i < |checks| ensures detail.rows[i].id == checks[i].id {
          assert RowIds(detail.rows)[i] == Ids(checks)[i];
        }
      }
    }
    assert forall i | 0 <= i < |checks| && checks[i].required :: checks[i].id in Mandatory(checks);
    forall id | id in Mandatory(checks) ensures exists i :: 0 <= i < |checks| && checks[i].required && checks[i].id == id {
      var c :| c in checks && c.required && c.id == id;
      var i :| 0 <= i < |checks| && checks[i] == c;
    }
  }

  method Verify(builds: seq<string>, checks: seq<Check>, runs: Runs) returns (v: Verification)
    ensures |v.variants| == |builds|
    ensures forall i | 0 <= i < |builds| ::
      && v.variants[i].build == builds[i] && v.variants[i].execution == runs(builds[i]).0
      && v.variants[i].detail == runs(builds[i]).1.(passed := v.variants[i].passed)
    ensures forall i | 0 <= i < |builds| ::
      var execution, detail := runs(builds[i]).0, runs(builds[i]).1;
      v.variants[i].passed <==>
      && (exists k :: 0 <= k < |checks| && checks[k].required)
      && |detail.rows| == |checks| && (forall k | 0 <= k < |checks| :: detail.rows[k].id == checks[k].id)
      && (forall k, l | 0 <= k < |checks| && checks[k].required && 0 <= l < |checks| && checks[l].id == checks[k].id ::
            detail.rows[l].passed && detail.rows[l].returncode == Some(0))
      && detail.passed && execution == Execution(Some(0), false)
      && detail.server == Some(Server(0, None, false, false, false))
    ensures v.passed <==> |builds| > 0 && forall i | 0 <= i < |builds| :: v.variants[i].passed
    ensures v.variants == Variants(builds, checks, runs) && v.passed == VerificationPassed(builds, checks, runs)
  {
    var rows: seq<Variant> := [];
    for i := 0 to |builds|
      invariant |rows| == i && forall j | 0 <= j < i :: rows[j] == VariantOf(checks, builds[j], runs)
    {
      var (execution, detail) := runs(builds[i]);
      var passed := Passes(checks, execution, detail);
      rows := rows + [Variant(builds[i], passed, execution, detail.(passed := passed))];
    }
    v := Verification(|rows| > 0 && forall i | 0 <= i < |rows| :: rows[i].passed, rows);
    forall i | 0 <= i < |builds|
      ensures
        var execution, detail := runs(builds[i]).0, runs(builds[i]).1;
        v.variants[i].passed <==>
        && (exists k :: 0 <= k < |checks| && checks[k].required)
        && |detail.rows| == |checks| && (forall k | 0 <= k < |checks| :: detail.rows[k].id == checks[k].id)
        && (forall k, l | 0 <= k < |checks| && checks[k].required && 0 <= l < |checks| && checks[l].id == checks[k].id ::
              detail.rows[l].passed && detail.rows[l].returncode == Some(0))
        && detail.passed && execution == Execution(Some(0), false)
        && detail.server == Some(Server(0, None, false, false, false))
    {
      PassesIff(checks, runs(builds[i]).0, runs(builds[i]).1);
    }
  }

  // ------------------------------------------------------------------ the report

  datatype Scenario = Incomplete | Failed | Passed

  datatype Status = Unverified | RequirementFailed | RequirementIncomplete | ScenariosPassed

  function VariantFor(variants: seq<Variant>, build: string): Option<Variant> {
    if |variants| == 0 then None
    else if variants[|variants| - 1].build == build then Some(variants[|variants| - 1])
    else VariantFor(variants[..|variants| - 1], build)
  }

  function RowFor(rows: seq<Row>, id: string): Option<Row> {
    if |rows| == 0 then None else if rows[0].id == id then Some(rows[0]) else RowFor(rows[1..], id)
  }

  function Builds(variants: seq<Variant>): seq<string> {
    seq(|variants|, i requires 0 <= i < |variants| => variants[i].build)
  }

  /** The checker finished and accounted for every check. */
  predicate SupervisorCompleted(checks: seq<Check>, variants: seq<Variant>, v: Variant) {
    && Unique(Builds(variants))
    && |v.detail.rows| == |checks| && Elements(RowIds(v.detail.rows)) == Elements(Ids(checks))
    && !v.execution.timedOut && (v.execution.returncode == Some(0) || v.execution.returncode == Some(1))
  }

  /** The report's own judgement of one check on one build. */
  function Judge(checks: seq<Check>, variants: seq<Variant>, recorded: bool, c: Check, build: string): Scenario {
    var variant := VariantFor(variants, build);
    if variant.None? || !recorded || !SupervisorCompleted(checks, variants, variant.value) then Incomplete
    else
      var row := RowFor(variant.value.detail.rows, c.id);
      if row.None? || row.value.returncode.None? then Incomplete
      else if row.value.passed && row.value.returncode == Some(0) && IsClean(variant.value.detail.server) then Passed
      else Failed
  }

  /** The position of a build's record, when no build has two, and of the first row a record has for a check. */
  ghost predicate RecordAt(variants: seq<Variant>, build: string, k: nat) {
    && k < |variants| && variants[k].build == build
    && forall i, j | 0 <= i < j < |variants| :: variants[i].build != variants[j].build
  }

  ghost predicate RowAt(rows: seq<Row>, id: string, m: nat) {
    m < |rows| && rows[m].id == id && forall l | 0 <= l < m :: rows[l].id != id
  }

  lemma {:induction false} VariantForRecord(variants: seq<Variant>, build: string, k: nat)
    requires RecordAt(variants, build, k)
    ensures VariantFor(variants, build) == Some(variants[k])
  {
    var n := |variants| - 1;
    if k < n {
      assert variants[k].build != variants[n].build;
      VariantForRecord(variants[..n], build, k);
    }
  }

  lemma {:induction false} VariantForListed(variants: seq<Variant>, build: string) returns (k: nat)
    requires VariantFor(variants, build).Some?
    ensures k < |variants| && variants[k].build == build
  {
    k := |variants| - 1;
    if variants[k].build != build { k := VariantForListed(variants[..k], build); }
  }

  lemma {:induction false} RowForFirst(rows: seq<Row>, id: string, m: nat)
    requires RowAt(rows, id, m)
    ensures RowFor(rows, id) == Some(rows[m])
  {
    if m > 0 { RowForFirst(rows[1..], id, m - 1); }
  }

  lemma {:induction false} RowForListed(rows: seq<Row>, id: string) returns (m: nat)
    requires RowFor(rows, id).Some?
    ensures RowAt(rows, id, m)
  {
    m := 0;
    if rows[0].id != id {
      var n := RowForListed(rows[1..], id);
      m := n + 1;
      assert forall l | 0 < l < m :: rows[l] == rows[1..][l - 1];
    }
  }

  lemma UniqueBuildsIff(variants: seq<Variant>)
    ensures Unique(Builds(variants)) <==> forall i, j | 0 <= i < j < |variants| :: variants[i].build != variants[j].build
  {
    forall i, j | 0 <= i < j < |variants| ensures Builds(variants)[i] != Builds(variants)[j] <==> variants[i].build != variants[j].build {
    }
  }

  lemma IdsAre(rows: seq<Row>, checks: seq<Check>)
    ensures Elements(RowIds(rows)) == (set r | r in rows :: r.id) && Elements(Ids(checks)) == (set c | c in checks :: c.id)
  {
    forall r | r in rows ensures r.id in Elements(RowIds(rows)) {
      var i :| 0 <= i < |rows| && rows[i] == r;
      assert RowIds(rows)[i] == r.id;
    }
    forall c | c in checks ensures c.id in Elements(Ids(checks)) {
      var i :| 0 <= i < |checks| && checks[i] == c;
      assert Ids(checks)[i] == c.id;
    }
  }

  /** When the report calls a check passed or failed on a build: the verification is on record, the build has the
      only record of its name, which has a row for every check and no other from a checker that ended in time
      with success or failure, and the first row of the check says how it exited; passed, when that row passed
      with exit 0 and the server exited 0, not early, without a kill, a sanitizer's report or a cut. */
  lemma JudgedIff(checks: seq<Check>, variants: seq<Variant>, recorded: bool, c: Check, build: string, k: nat, m: nat)
    requires RecordAt(variants, build, k) && RowAt(variants[k].detail.rows, c.id, m)
    ensures var v := variants[k];
      var row := v.detail.rows[m];
      var judged := Judge(checks, variants, recorded, c, build);
      (judged != Incomplete <==>
        && recorded && !v.execution.timedOut && v.execution.returncode in {Some(0), Some(1)}
        && |v.detail.rows| == |checks| && (set r | r in v.detail.rows :: r.id) == (set d | d in checks :: d.id)
        && row.returncode.Some?)
      && (judged == Passed <==>
            judged != Incomplete && row.passed && row.returncode == Some(0)
            && v.detail.server == Some(Server(0, None, false, false, false)))
  {
    VariantForRecord(variants, build, k);
    RowForFirst(variants[k].detail.rows, c.id, m);
    UniqueBuildsIff(variants);
    IdsAre(variants[k].detail.rows, checks);
  }

  /** Without a sole record or without a row the check counts as incomplete. */
  lemma JudgedHasRow(checks: seq<Check>, variants: seq<Variant>, recorded: bool, c: Check, build: string) returns (k: nat, m: nat)
    requires Judge(checks, variants, recorded, c, build) != Incomplete
    ensures RecordAt(variants, build, k) && RowAt(variants[k].detail.rows, c.id, m)
  {
    k := VariantForListed(variants, build);
    UniqueBuildsIff(variants);
    VariantForRecord(variants, build, k);
    m := RowForListed(variants[k].detail.rows, c.id);
  }

  predicate Mapped(c: Check, requirement: string) { c.required && requirement in c.requirements }

  /** Some required check mapped to the requirement is judged so on some build. */
  ghost predicate Arises(checks: seq<Check>, builds: seq<string>, variants: seq<Variant>, recorded: bool,
                         requirement: string, s: Scenario) {
    exists i, j :: 0 <= i < |checks| && 0 <= j < |builds| && JudgedSo(checks, builds, variants, recorded, requirement, s, i, j)
  }

  predicate JudgedSo(checks: seq<Check>, builds: seq<string>, variants: seq<Variant>, recorded: bool,
                     requirement: string, s: Scenario, i: nat, j: nat)
    requires i < |checks| && j < |builds|
  {
    Mapped(checks[i], requirement) && Judge(checks, variants, recorded, checks[i], builds[j]) == s
  }

  /** The status of a requirement: the worst of its required scenarios, if it has any. */
  ghost function StatusOf(checks: seq<Check>, builds: seq<string>, variants: seq<Variant>, recorded: bool, requirement: string): Status {
    if Arises(checks, builds, variants, recorded, requirement, Failed) then RequirementFailed
    else if Arises(checks, builds, variants, recorded, requirement, Incomplete) then RequirementIncomplete
    else if Arises(checks, builds, variants, recorded, requirement, Passed) then ScenariosPassed
    else Unverified
  }

  lemma ArisesIff(checks: seq<Check>, builds: seq<string>, variants: seq<Variant>, recorded: bool, requirement: string, s: Scenario)
    ensures Arises(checks, builds, variants, recorded, requirement, s) <==>
      exists i, j :: 0 <= i < |checks| && 0 <= j < |builds| && checks[i].required && requirement in checks[i].requirements
        && Judge(checks, variants, recorded, checks[i], builds[j]) == s
  {
    forall i, j | 0 <= i < |checks| && 0 <= j < |builds| && checks[i].required && requirement in checks[i].requirements
      && Judge(checks, variants, recorded, checks[i], builds[j]) == s
      ensures Arises(checks, builds, variants, recorded, requirement, s)
    {
      assert JudgedSo(checks, builds, variants, recorded, requirement, s, i, j);
    }
    if Arises(checks, builds, variants, recorded, requirement, s) {
      var i, j :| 0 <= i < |checks| && 0 <= j < |builds| && JudgedSo(checks, builds, variants, recorded, requirement, s, i, j);
    }
  }

  /** What each status says of the judgements of the required checks mapped to the requirement. */
  lemma StatusIs(checks: seq<Check>, builds: seq<string>, variants: seq<Variant>, recorded: bool, requirement: string)
    returns (status: Status)
    ensures status == StatusOf(checks, builds, variants, recorded, requirement)
    ensures status == Unverified <==>
      builds == [] || forall i | 0 <= i < |checks| :: !checks[i].required || requirement !in checks[i].requirements
    ensures status == RequirementFailed <==>
      exists i, j :: 0 <= i < |checks| && 0 <= j < |builds| && checks[i].required && requirement in checks[i].requirements
        && Judge(checks, variants, recorded, checks[i], builds[j]) == Failed
    ensures status == RequirementFailed || status == RequirementIncomplete <==>
      exists i, j :: 0 <= i < |checks| && 0 <= j < |builds| && checks[i].required && requirement in checks[i].requirements
        && Judge(checks, variants, recorded, checks[i], builds[j]) != Passed
  {
    status := StatusOf(checks, builds, variants, recorded, requirement);
    ArisesIff(checks, builds, variants, recorded, requirement, Failed);
    ArisesIff(checks, builds, variants, recorded, requirement, Incomplete);
    ArisesIff(checks, builds, variants, recorded, requirement, Passed);
    if i :| 0 <= i < |checks| && |builds| > 0 && checks[i].required && requirement in checks[i].requirements {
      var s := Judge(checks, variants, recorded, checks[i], builds[0]);
      assert JudgedSo(checks, builds, variants, recorded, requirement, s, i, 0);
      assert Arises(checks, builds, variants, recorded, requirement, s);
    }
  }

  /** The report's loop over the mapped checks and the builds. */
  method ReportRequirement(checks: seq<Check>, builds: seq<string>, variants: seq<Variant>, recorded: bool, requirement: string)
    returns (status: Status)
    ensures status == Unverified <==>
      builds == [] || forall i | 0 <= i < |checks| :: !checks[i].required || requirement !in checks[i].requirements
    ensures status == RequirementFailed <==>
      exists i, j :: 0 <= i < |checks| && 0 <= j < |builds| && checks[i].required && requirement in checks[i].requirements
        && Judge(checks, variants, recorded, checks[i], builds[j]) == Failed
    ensures status == RequirementFailed || status == RequirementIncomplete <==>
      exists i, j :: 0 <= i < |checks| && 0 <= j < |builds| && checks[i].required && requirement in checks[i].requirements
        && Judge(checks, variants, recorded, checks[i], builds[j]) != Passed
    ensures status == StatusOf(checks, builds, variants, recorded, requirement)
  {
    ghost var expected := StatusIs(checks, builds, variants, recorded, requirement);
    var seen: set<Scenario> := {};
    for i := 0 to |checks|
      invariant forall s | s in seen :: Arises(checks, builds, variants, recorded, requirement, s)
      invariant forall k, l, s | 0 <= k < i && 0 <= l < |builds| ::
        JudgedSo(checks, builds, variants, recorded, requirement, s, k, l) ==> s in seen
    {
      for j := 0 to |builds|
        invariant forall s | s in seen :: Arises(checks, builds, variants, recorded, requirement, s)
        invariant forall k, l, s | 0 <= k <= i && 0 <= l < |builds| && (k < i || l < j) ::
          JudgedSo(checks, builds, variants, recorded, requirement, s, k, l) ==> s in seen
      {
        if Mapped(checks[i], requirement) {
          var s := Judge(checks, variants, recorded, checks[i], builds[j]);
          assert JudgedSo(checks, builds, variants, recorded, requirement, s, i, j);
          seen := seen + {s};
        }
      }
    }
    status := if seen == {} then Unverified
      else if Failed in seen then RequirementFailed
      else if Incomplete in seen then RequirementIncomplete
      else ScenariosPassed;
    assert forall s | s in seen :: s == Failed || s == Incomplete || s == Passed;
  }

  // ------------------------------------------------------------------ the judgements agree

  predicate IsFine(s: Status) { s == ScenariosPassed || s == Unverified }

  lemma {:induction false} VariantForBuild(variants: seq<Variant>, i: nat)
    requires Unique(Builds(variants)) && i < |variants|
    ensures VariantFor(variants, variants[i].build) == Some(variants[i])
    decreases |variants|
  {
    var n := |variants| - 1;
    if i < n {
      assert Builds(variants)[i] != Builds(variants)[n];
      assert Builds(variants[..n]) == Builds(variants)[..n];
      VariantForBuild(variants[..n], i);
    }
  }

  lemma {:induction false} RowForId(rows: seq<Row>, i: nat)
    requires Unique(RowIds(rows)) && i < |rows|
    ensures RowFor(rows, rows[i].id) == Some(rows[i])
    decreases |rows|
  {
    if i > 0 {
      assert RowIds(rows)[0] != RowIds(rows)[i];
      assert RowIds(rows[1..]) == RowIds(rows)[1..];
      RowForId(rows[1..], i - 1);
    }
  }

  /** What the report makes of a check on a build whose checker finished with a row for every check. */
  lemma JudgeOfRow(checks: seq<Check>, builds: seq<string>, runs: Runs, i: nat, j: nat)
    requires Unique(Ids(checks)) && Unique(builds) && i < |checks| && j < |builds|
    requires var (execution, detail) := runs(builds[j]);
      && RowIds(detail.rows) == Ids(checks)
      && !execution.timedOut && (execution.returncode == Some(0) || execution.returncode == Some(1))
    ensures var detail := runs(builds[j]).1;
      && |detail.rows| == |checks|
      && Judge(checks, Variants(builds, checks, runs), true, checks[i], builds[j]) ==
        if detail.rows[i].returncode.None? then Incomplete
        else if detail.rows[i].passed && detail.rows[i].returncode == Some(0) && IsClean(detail.server) then Passed
        else Failed
  {
    var variants, detail := Variants(builds, checks, runs), runs(builds[j]).1;
    assert Builds(variants) == builds;
    VariantForBuild(variants, j);
    assert |RowIds(detail.rows)| == |Ids(checks)|;
    RowForId(detail.rows, i);
    assert RowIds(detail.rows)[i] == Ids(checks)[i];
  }

  /** A passed verification leaves no requirement failed or incomplete. */
  lemma PassedIsFine(checks: seq<Check>, builds: seq<string>, runs: Runs, requirement: string)
    requires Unique(Ids(checks)) && Unique(builds) && VerificationPassed(builds, checks, runs)
    ensures IsFine(StatusOf(checks, builds, Variants(builds, checks, runs), true, requirement))
  {
    var variants := Variants(builds, checks, runs);
    forall i, j, s | 0 <= i < |checks| && 0 <= j < |builds| && s != Passed
      ensures !JudgedSo(checks, builds, variants, true, requirement, s, i, j)
    {
      assert VariantOf(checks, builds[j], runs).passed;
      JudgeOfRow(checks, builds, runs, i, j);
      var rows := runs(builds[j]).1.rows;
      assert RowIds(rows)[i] == Ids(checks)[i];
      if checks[i].required { assert rows[i].id in Mandatory(checks); }
    }
  }

  /** A requirement whose scenarios passed has, for every required check mapped to it and on every build, a row
      that passed with exit 0, in the only record of that build, which has a row for every check, from a checker
      that ended in time and a server that ended clean. */
  lemma ScenariosPassedMeans(checks: seq<Check>, builds: seq<string>, variants: seq<Variant>, recorded: bool,
                             requirement: string, i: nat, j: nat) returns (k: nat, m: nat)
    requires StatusOf(checks, builds, variants, recorded, requirement) == ScenariosPassed
    requires i < |checks| && j < |builds| && checks[i].required && requirement in checks[i].requirements
    ensures recorded && k < |variants| && variants[k].build == builds[j]
    ensures forall l | 0 <= l < |variants| && variants[l].build == builds[j] :: l == k
    ensures var v := variants[k];
      && !v.execution.timedOut && v.execution.returncode in {Some(0), Some(1)}
      && |v.detail.rows| == |checks| && (set r | r in v.detail.rows :: r.id) == (set c | c in checks :: c.id)
      && m < |v.detail.rows| && v.detail.rows[m].id == checks[i].id
      && v.detail.rows[m].passed && v.detail.rows[m].returncode == Some(0)
      && v.detail.server == Some(Server(0, None, false, false, false))
  {
    var s := Judge(checks, variants, recorded, checks[i], builds[j]);
    assert JudgedSo(checks, builds, variants, recorded, requirement, s, i, j);
    assert Arises(checks, builds, variants, recorded, requirement, s);
    assert s == Passed;
    k, m := JudgedHasRow(checks, variants, recorded, checks[i], builds[j]);
    JudgedIff(checks, variants, recorded, checks[i], builds[j], k, m);
  }

  // ------------------------------------------------------------------ exactly when they agree

  /** The checker ran every check, said whether the required ones passed, and exited accordingly; a
      server whose end could not be recorded withdraws the pass. */
  predicate Finished(checks: seq<Check>, execution: Execution, detail: Detail) {
    var ok := |checks| > 0 && RequiredPass(detail.rows);
    && execution == Execution(Some(if ok then 0 else 1), false)
    && (detail.passed == ok || (!detail.passed && !IsClean(detail.server)))
  }

  /** The checker was stopped: it ran out of time, or ended neither with success nor with failure. */
  predicate Stopped(execution: Execution) {
    execution.timedOut || (execution.returncode != Some(0) && execution.returncode != Some(1))
  }

  /** Everything a build's record can be: rows for all checks from a checker that finished or was
      stopped after writing them, or no rows at all, when the server did not start, the checker
      failed, or what it wrote was no result. */
  predicate Produced(checks: seq<Check>, run: (Execution, Detail), outcomes: string -> Outcome) {
    var (execution, detail) := run;
    || (detail.rows == [] && !detail.passed)
    || (detail.rows == RowsOf(checks, outcomes) && (Finished(checks, execution, detail) || Stopped(execution)))
  }

  /** The records a build can have, written out. */
  lemma ProducedIff(checks: seq<Check>, run: (Execution, Detail), outcomes: string -> Outcome)
    ensures var (execution, detail) := run;
      Produced(checks, run, outcomes) <==>
      || (detail.rows == [] && !detail.passed)
      || (&& |detail.rows| == |checks|
          && (forall i | 0 <= i < |checks| ::
                && detail.rows[i].id == checks[i].id && detail.rows[i].required == checks[i].required
                && (detail.rows[i].passed <==> outcomes(checks[i].id) == Exited(0, Some(true)))
                && detail.rows[i].returncode ==
                     if outcomes(checks[i].id) == TimedOut then None else Some(outcomes(checks[i].id).returncode))
          && (|| execution.timedOut || execution.returncode !in {Some(0), Some(1)}
              || (&& (execution.returncode == Some(0) <==>
                       |checks| > 0 && forall i | 0 <= i < |checks| && checks[i].required :: detail.rows[i].passed)
                  && (detail.passed ==> execution.returncode == Some(0))
                  && (execution.returncode == Some(0) && !detail.passed ==>
                       detail.server != Some(Server(0, None, false, false, false))))))
  {
    var (execution, detail) := run;
    if |detail.rows| == |checks| && forall i | 0 <= i < |checks| :: detail.rows[i] == RowOf(checks[i], outcomes(checks[i].id)) {
      assert detail.rows == RowsOf(checks, outcomes);
    }
  }

  predicate AllProduced(checks: seq<Check>, builds: seq<string>, runs: Runs, outcomes: string -> string -> Outcome) {
    forall j | 0 <= j < |builds| :: Produced(checks, runs(builds[j]), outcomes(builds[j]))
  }

  predicate AllCite(checks: seq<Check>) { forall i | 0 <= i < |checks| :: checks[i].required ==> checks[i].requirements != {} }

  ghost predicate AllFine(checks: seq<Check>, builds: seq<string>, runs: Runs) {
    forall requirement :: IsFine(StatusOf(checks, builds, Variants(builds, checks, runs), true, requirement))
  }

  /** A required check that cites a requirement is judged passed on every build when all requirements
      are fine. */
  lemma FineJudged(checks: seq<Check>, builds: seq<string>, runs: Runs, i: nat, j: nat)
    requires AllFine(checks, builds, runs) && i < |checks| && j < |builds|
    requires checks[i].required && checks[i].requirements != {}
    ensures Judge(checks, Variants(builds, checks, runs), true, checks[i], builds[j]) == Passed
  {
    var variants := Variants(builds, checks, runs);
    var requirement :| requirement in checks[i].requirements;
    assert IsFine(StatusOf(checks, builds, variants, true, requirement));
    var s := Judge(checks, variants, true, checks[i], builds[j]);
    assert JudgedSo(checks, builds, variants, true, requirement, s, i, j);
    assert Arises(checks, builds, variants, true, requirement, s);
  }

  /** What a check judged passed says of its build. */
  lemma PassedShows(checks: seq<Check>, builds: seq<string>, runs: Runs, i: nat, j: nat)
    requires Unique(builds) && i < |checks| && j < |builds|
    requires Judge(checks, Variants(builds, checks, runs), true, checks[i], builds[j]) == Passed
    ensures var (execution, detail) := runs(builds[j]);
      |detail.rows| == |checks| && !Stopped(execution) && IsClean(detail.server)
  {
    var variants := Variants(builds, checks, runs);
    assert Builds(variants) == builds;
    VariantForBuild(variants, j);
  }

  lemma RowsOfIds(checks: seq<Check>, outcomes: string -> Outcome)
    ensures |RowsOf(checks, outcomes)| == |checks| && RowIds(RowsOf(checks, outcomes)) == Ids(checks)
    ensures forall i | 0 <= i < |checks| :: RowsOf(checks, outcomes)[i].required == checks[i].required
  {
  }

  /** On everything the checker can produce, if every required check cites a requirement, requirements
      that are all fine mean the verification passed. */
  lemma FineMeansPassed(checks: seq<Check>, builds: seq<string>, runs: Runs, outcomes: string -> string -> Outcome)
    requires Unique(Ids(checks)) && Unique(builds) && |builds| > 0 && Mandatory(checks) != {}
    requires AllCite(checks) && AllProduced(checks, builds, runs, outcomes) && AllFine(checks, builds, runs)
    ensures VerificationPassed(builds, checks, runs)
  {
    forall j | 0 <= j < |builds| ensures VariantOf(checks, builds[j], runs).passed {
      FineBuildPasses(checks, builds, runs, outcomes, j);
    }
  }

  lemma FineBuildPasses(checks: seq<Check>, builds: seq<string>, runs: Runs, outcomes: string -> string -> Outcome, j: nat)
    requires Unique(Ids(checks)) && Unique(builds) && j < |builds| && Mandatory(checks) != {}
    requires AllCite(checks) && AllProduced(checks, builds, runs, outcomes) && AllFine(checks, builds, runs)
    ensures Passes(checks, runs(builds[j]).0, runs(builds[j]).1)
  {
    var (execution, detail) := runs(builds[j]);
    var k := SomeMandatory(checks);
    FineJudged(checks, builds, runs, k, j);
    PassedShows(checks, builds, runs, k, j);
    assert Produced(checks, runs(builds[j]), outcomes(builds[j]));
    assert detail.rows == RowsOf(checks, outcomes(builds[j])) && Finished(checks, execution, detail);
    RowsOfIds(checks, outcomes(builds[j]));
    forall i | 0 <= i < |checks| && checks[i].required
      ensures detail.rows[i].passed && detail.rows[i].returncode == Some(0)
    {
      FineJudged(checks, builds, runs, i, j);
      JudgeOfRow(checks, builds, runs, i, j);
    }
    BuildPasses(checks, execution, detail);
  }

  lemma SomeMandatory(checks: seq<Check>) returns (k: nat)
    requires Mandatory(checks) != {}
    ensures k < |checks| && checks[k].required
  {
    var id :| id in Mandatory(checks);
    var c :| c in checks && c.required && c.id == id;
    k :| 0 <= k < |checks| && checks[k] == c;
  }

  lemma BuildPasses(checks: seq<Check>, execution: Execution, detail: Detail)
    requires Mandatory(checks) != {} && Unique(Ids(checks)) && RowIds(detail.rows) == Ids(checks) && |detail.rows| == |checks|
    requires forall i | 0 <= i < |checks| && checks[i].required :: detail.rows[i].passed && detail.rows[i].returncode == Some(0)
    requires forall i | 0 <= i < |checks| :: detail.rows[i].required == checks[i].required
    requires IsClean(detail.server) && Finished(checks, execution, detail)
    ensures Passes(checks, execution, detail)
  {
    var k := SomeMandatory(checks);
    forall i | 0 <= i < |detail.rows| && detail.rows[i].id in Mandatory(checks)
      ensures detail.rows[i].passed && detail.rows[i].returncode == Some(0)
    {
      var d :| d in checks && d.required && d.id == detail.rows[i].id;
      var l :| 0 <= l < |checks| && checks[l] == d;
      assert RowIds(detail.rows)[i] == Ids(checks)[i] && Ids(checks)[l] == Ids(checks)[i];
    }
  }

  const CLEAN := Some(Server(0, None, false, false, false))

  /** The record of a build on which the one check failed, every other passed, and the server was
      clean. */
  function OneFailure(checks: seq<Check>, failing: string): (Execution, Detail) {
    var rows := RowsOf(checks, Failing(failing));
    var passed := |checks| > 0 && RequiredPass(rows);
    (Execution(Some(if passed then 0 else 1), false), Detail(passed, rows, CLEAN))
  }

  function Failing(failing: string): string -> Outcome {
    (id: string) => if id == failing then Exited(1, Some(false)) else Exited(0, Some(true))
  }

  /** A failing required check that cites no requirement leaves every requirement fine and the
      verification failed. */
  lemma UncitedDisagrees(checks: seq<Check>, builds: seq<string>, k: nat) returns (runs: Runs, outcomes: string -> string -> Outcome)
    requires Unique(Ids(checks)) && Unique(builds) && |builds| > 0
    requires k < |checks| && checks[k].required && checks[k].requirements == {}
    ensures AllProduced(checks, builds, runs, outcomes)
    ensures AllFine(checks, builds, runs) && !VerificationPassed(builds, checks, runs)
  {
    var run := OneFailure(checks, checks[k].id);
    runs := (build: string) => run;
    outcomes := (build: string) => Failing(checks[k].id);
    assert !run.1.rows[k].passed;
    assert !VariantOf(checks, builds[0], runs).passed;
    forall requirement ensures IsFine(StatusOf(checks, builds, Variants(builds, checks, runs), true, requirement)) {
      OthersFine(checks, builds, runs, k, requirement);
    }
  }

  lemma OthersFine(checks: seq<Check>, builds: seq<string>, runs: Runs, k: nat, requirement: string)
    requires Unique(Ids(checks)) && Unique(builds) && k < |checks| && checks[k].requirements == {}
    requires forall build :: runs(build) == OneFailure(checks, checks[k].id)
    ensures IsFine(StatusOf(checks, builds, Variants(builds, checks, runs), true, requirement))
  {
    var variants := Variants(builds, checks, runs);
    forall i, j, s | 0 <= i < |checks| && 0 <= j < |builds| && s != Passed
      ensures !JudgedSo(checks, builds, variants, true, requirement, s, i, j)
    {
      assert RowIds(runs(builds[j]).1.rows) == Ids(checks);
      JudgeOfRow(checks, builds, runs, i, j);
      if Mapped(checks[i], requirement) {
        assert Ids(checks)[i] == checks[i].id && Ids(checks)[k] == checks[k].id;
        assert runs(builds[j]).1.rows[i] == Row(checks[i].id, true, true, Some(0));
      }
    }
  }

  /** The two judgements agree on everything the checker can produce exactly when every required check
      cites a requirement. */
  lemma AgreementIff(checks: seq<Check>, builds: seq<string>)
    requires Unique(Ids(checks)) && Unique(builds) && |builds| > 0 && Mandatory(checks) != {}
    ensures (forall runs: Runs, outcomes: string -> string -> Outcome | AllProduced(checks, builds, runs, outcomes) ::
               VerificationPassed(builds, checks, runs) <==> AllFine(checks, builds, runs))
        <==> AllCite(checks)
  {
    if AllCite(checks) {
      forall runs: Runs, outcomes: string -> string -> Outcome | AllProduced(checks, builds, runs, outcomes)
        ensures VerificationPassed(builds, checks, runs) <==> AllFine(checks, builds, runs)
      {
        if VerificationPassed(builds, checks, runs) {
          forall requirement ensures IsFine(StatusOf(checks, builds, Variants(builds, checks, runs), true, requirement)) {
            PassedIsFine(checks, builds, runs, requirement);
          }
        }
        if AllFine(checks, builds, runs) { FineMeansPassed(checks, builds, runs, outcomes); }
      }
    } else {
      var k :| 0 <= k < |checks| && checks[k].required && checks[k].requirements == {};
      var runs, outcomes := UncitedDisagrees(checks, builds, k);
    }
  }
}
