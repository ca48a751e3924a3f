/** The projection of raw host results to what may be published, and when projecting again changes
    nothing. */
module Projection {
  /** The keys the projection treats by name; Named stands for every other one. */
  datatype Key =
    | Variants | Variant | Detail | DiagnosticVersion | Exposure
    | Checks | ServerReturncode | EarlyExit | StopTimeout | SanitizerError | SanitizerCategories
    | OutputTruncated | SourceLocations | ServerOutput
    | Id | Category | Passed | Status | Observation
    | Argv | ReqIds | Command | Returncode | TimedOut | DurationMs | Stdout | Stderr
    | ServerStdout | ServerArgv | ProjectRoot | Path | Sha256
    | Named(name: string)

  datatype Json = Null | Bool(value: bool) | Num(number: int) | Text(text: string) | Arr(items: seq<Json>) | Obj(fields: map<Key, Json>)

  type Fields = map<Key, Json>

  /** What an observation's key may carry. */
  datatype Carries = Nested | Count | Word | Flag | Nothing

  /** The parts decided outside the projection: what observation keys carry and which words are plain,
      the source positions a raw detail's logs support, which error texts are the sandbox's own, and
      which keys are never published. */
  datatype Rules = Rules(
    carries: Key -> Carries,
    plain: string -> bool,
    locations: Fields -> seq<Json>,
    daemon: Json -> bool,
    omitted: Key -> bool)

  const SANDBOX_FAILED := Text("sandbox execution failed")

  /** What the source's tables say: keys the projection turns on carry nothing in an observation, what
      is carried or always written is published, and positions need a project. */
  ghost predicate Consistent(rules: Rules) {
    && (forall k | k in {Variants, Checks, ServerStdout, ServerArgv, Argv, Command, SourceLocations, Path} ::
          rules.carries(k) == Nothing)
    && (forall k :: rules.carries(k) != Nothing ==> !rules.omitted(k))
    && (forall k | k in {Id, Category, Passed, Observation} :: !rules.omitted(k))
    && (forall f :: ProjectRoot !in f ==> rules.locations(f) == [])
  }

  function Get(f: Fields, k: Key, default: Json): Json { if k in f then f[k] else default }

  function IsTrue(v: Json): Json { Bool(v == Bool(true)) }

  function Items(v: Json): seq<Json> { if v.Arr? then v.items else [] }

  function FieldsOf(v: Json): Fields { if v.Obj? then v.fields else map[] }

  // ------------------------------------------------------------------ observations

  predicate Public(rules: Rules, k: Key, v: Json) {
    match rules.carries(k)
    case Nested => v.Obj?
    case Count => v.Num? && 0 <= v.number <= 0x8000_0000
    case Word => v.Text? && rules.plain(v.text)
    case Flag => v.Bool?
    case Nothing => false
  }

  /** Only semantic fields of known kinds, nested ones filtered in turn. */
  function Observed(rules: Rules, v: Json): Json
    decreases v
  {
    if !v.Obj? then Obj(map[])
    else Obj(map k | k in v.fields && Public(rules, k, v.fields[k]) ::
      if v.fields[k].Obj? then Observed(rules, v.fields[k]) else v.fields[k])
  }

  lemma {:induction false} ObservedAgain(rules: Rules, v: Json)
    ensures Observed(rules, Observed(rules, v)) == Observed(rules, v)
    decreases v
  {
    if v.Obj? {
      var once := Observed(rules, v);
      forall k | k in once.fields
        ensures Public(rules, k, once.fields[k])
        ensures once.fields[k].Obj? ==> Observed(rules, once.fields[k]) == once.fields[k]
      {
        if v.fields[k].Obj? { ObservedAgain(rules, v.fields[k]); }
      }
      assert Observed(rules, once).fields == once.fields;
    }
  }

  // ------------------------------------------------------------------ verification results

  const CHECK_KEYS := {Id, Category, Passed, Status, Observation}

  /** What a published check row says under each of its keys. */
  function CheckField(rules: Rules, f: Fields, k: Key): Json {
    match k
    case Id => Get(f, Id, Null)
    case Category => Get(f, Category, Text("checker_result_invalid"))
    case Passed => IsTrue(Get(f, Passed, Null))
    case Status => Text(if Get(f, Passed, Null) == Bool(true) then "passed" else "failed")
    case _ => Observed(rules, Get(f, Observation, Null))
  }

  /** A published check row. */
  function CheckRow(rules: Rules, f: Fields): Fields { map k | k in CHECK_KEYS :: CheckField(rules, f, k) }

  function CheckView(rules: Rules, row: Json): Json {
    Obj(CheckRow(rules, FieldsOf(row)))
  }

  function CheckViews(rules: Rules, rows: seq<Json>): seq<Json> {
    seq(|rows|, i requires 0 <= i < |rows| => CheckView(rules, rows[i]))
  }

  /** The sanitizer categories named, in their fixed order. */
  function Named3(v: Json): Json {
    Arr((if Text("address") in Items(v) then [Text("address")] else [])
      + (if Text("undefined") in Items(v) then [Text("undefined")] else [])
      + (if Text("leak") in Items(v) then [Text("leak")] else []))
  }

  const DETAIL_KEYS := {
    Passed, ServerReturncode, EarlyExit, StopTimeout, SanitizerError, SanitizerCategories, OutputTruncated,
    SourceLocations, ServerOutput, Checks}

  /** What a published detail says under each of its keys. */
  function DetailField(rules: Rules, f: Fields, locations: Json, k: Key): Json {
    match k
    case Passed => IsTrue(Get(f, Passed, Null))
    case SanitizerCategories => Named3(Get(f, SanitizerCategories, Null))
    case OutputTruncated => Get(f, OutputTruncated, Bool(false))
    case SourceLocations => locations
    case ServerOutput => Text("omitted")
    case Checks => Arr(CheckViews(rules, Items(Get(f, Checks, Null))))
    case _ => Get(f, k, Null)
  }

  function DetailView(rules: Rules, f: Fields, locations: Json): Fields {
    map k | k in DETAIL_KEYS :: DetailField(rules, f, locations, k)
  }

  const PUBLISHED := Text("repair-diagnostic/1")

  /** Positions come from the logs the first time and are kept once published. */
  function LocationsOf(rules: Rules, published: bool, detail: Fields): Json {
    if published then Get(detail, SourceLocations, Arr([])) else Arr(rules.locations(detail))
  }

  const VARIANT_KEYS := {Variant, Passed, Detail}

  function VariantField(rules: Rules, published: bool, f: Fields, k: Key): Json {
    match k
    case Variant => Get(f, Variant, Null)
    case Passed => IsTrue(Get(f, Passed, Null))
    case _ =>
      var detail := FieldsOf(Get(f, Detail, Null));
      Obj(DetailView(rules, detail, LocationsOf(rules, published, detail)))
  }

  function VariantView(rules: Rules, published: bool, variant: Json): Json {
    Obj(map k | k in VARIANT_KEYS :: VariantField(rules, published, FieldsOf(variant), k))
  }

  function VariantViews(rules: Rules, published: bool, rows: seq<Json>): seq<Json> {
    seq(|rows|, i requires 0 <= i < |rows| => VariantView(rules, published, rows[i]))
  }

  const VERIFICATION_KEYS := {DiagnosticVersion, Exposure, Passed, Variants}

  function VerificationField(rules: Rules, f: Fields, k: Key): Json {
    match k
    case DiagnosticVersion => PUBLISHED
    case Exposure => Text("private_isolated")
    case Passed => IsTrue(Get(f, Passed, Null))
    case _ => Arr(VariantViews(rules, Get(f, DiagnosticVersion, Null) == PUBLISHED, Items(Get(f, Variants, Null))))
  }

  function VerificationView(rules: Rules, f: Fields): Fields {
    map k | k in VERIFICATION_KEYS :: VerificationField(rules, f, k)
  }

  lemma CheckFieldAgain(rules: Rules, f: Fields, once: Fields, k: Key)
    requires k in once && once[k] == CheckField(rules, f, k)
    requires Passed in once && once[Passed] == CheckField(rules, f, Passed)
    requires k == Id || k == Category || k == Passed || k == Status || k == Observation
    ensures CheckField(rules, once, k) == CheckField(rules, f, k)
  {
    if k == Observation { ObservedAgain(rules, Get(f, Observation, Null)); }
  }

  lemma CheckViewAgain(rules: Rules, row: Json)
    ensures CheckView(rules, CheckView(rules, row)) == CheckView(rules, row)
  {
    CheckRowAgain(rules, FieldsOf(row));
  }

  lemma CheckRowAgain(rules: Rules, f: Fields)
    ensures CheckRow(rules, CheckRow(rules, f)) == CheckRow(rules, f)
  {
    var once := CheckRow(rules, f);
    assert Passed in CHECK_KEYS;
    forall k | k in CHECK_KEYS ensures CheckField(rules, once, k) == CheckField(rules, f, k) {
      CheckFieldAgain(rules, f, once, k);
    }
  }

  lemma Named3Again(v: Json)
    ensures Named3(Named3(v)) == Named3(v)
  {
  }

  lemma CheckViewsAgain(rules: Rules, rows: seq<Json>)
    ensures CheckViews(rules, CheckViews(rules, rows)) == CheckViews(rules, rows)
  {
    forall i | 0 <= i < |rows| ensures CheckViews(rules, CheckViews(rules, rows))[i] == CheckViews(rules, rows)[i] {
      CheckViewAgain(rules, rows[i]);
    }
  }

  /** Projecting a published detail keeps everything but its positions, which are those now given. */
  lemma DetailViewAgain(rules: Rules, f: Fields, locations: Json, again: Json)
    ensures DetailView(rules, DetailView(rules, f, locations), again) == DetailView(rules, f, again)
  {
    var once := DetailView(rules, f, locations);
    Named3Again(Get(f, SanitizerCategories, Null));
    CheckViewsAgain(rules, Items(Get(f, Checks, Null)));
    forall k | k in DETAIL_KEYS ensures DetailField(rules, once, again, k) == DetailField(rules, f, again, k) {
      assert Get(once, k, Null) == DetailField(rules, f, locations, k);
    }
  }

  lemma VariantFieldAgain(rules: Rules, published: bool, f: Fields, once: Fields, k: Key)
    requires k in once && once[k] == VariantField(rules, published, f, k)
    requires k == Variant || k == Passed || k == Detail
    ensures VariantField(rules, true, once, k) == VariantField(rules, published, f, k)
  {
    if k == Detail {
      var detail := FieldsOf(Get(f, Detail, Null));
      var locations := LocationsOf(rules, published, detail);
      DetailViewAgain(rules, detail, locations, locations);
      PublishedLocations(rules, detail, locations);
    }
  }

  lemma PublishedLocations(rules: Rules, detail: Fields, locations: Json)
    ensures LocationsOf(rules, true, DetailView(rules, detail, locations)) == locations
  {
  }

  lemma VariantViewAgain(rules: Rules, published: bool, variant: Json)
    ensures VariantView(rules, true, VariantView(rules, published, variant)) == VariantView(rules, published, variant)
  {
    var once, twice := VariantView(rules, published, variant).fields, VariantView(rules, true, VariantView(rules, published, variant)).fields;
    assert once.Keys == VARIANT_KEYS == twice.Keys;
    forall k | k in once ensures twice[k] == once[k] {
      assert once[k] == VariantField(rules, published, FieldsOf(variant), k) && twice[k] == VariantField(rules, true, once, k);
      VariantFieldAgain(rules, published, FieldsOf(variant), once, k);
    }
    SameFields(twice, once);
  }

  lemma VariantViewsAgain(rules: Rules, published: bool, rows: seq<Json>)
    ensures VariantViews(rules, true, VariantViews(rules, published, rows)) == VariantViews(rules, published, rows)
  {
    forall i | 0 <= i < |rows|
      ensures VariantViews(rules, true, VariantViews(rules, published, rows))[i] == VariantViews(rules, published, rows)[i]
    {
      VariantViewAgain(rules, published, rows[i]);
    }
  }

  lemma VerificationViewAgain(rules: Rules, f: Fields)
    ensures VerificationView(rules, VerificationView(rules, f)) == VerificationView(rules, f)
  {
    var once := VerificationView(rules, f);
    VariantViewsAgain(rules, Get(f, DiagnosticVersion, Null) == PUBLISHED, Items(Get(f, Variants, Null)));
    forall k | k in VERIFICATION_KEYS ensures VerificationField(rules, once, k) == VerificationField(rules, f, k) {
      assert Get(once, k, Null) == VerificationField(rules, f, k);
      assert Get(once, DiagnosticVersion, Null) == PUBLISHED;
    }
  }

  // ------------------------------------------------------------------ the projection

  predicate IsDetail(f: Fields) { Variants !in f && (Checks in f || ServerStdout in f || ServerArgv in f) }

  predicate IsRow(f: Fields) {
    Variants !in f && !IsDetail(f) && Argv in f && (ReqIds in f || Category in f)
  }

  predicate IsCommand(f: Fields) { Variants !in f && !IsDetail(f) && !IsRow(f) && Command in f && Returncode in f }

  const ROW_KEYS := {Id, Category, Passed, Observation}

  function RowView(rules: Rules, f: Fields): Fields { map k | k in ROW_KEYS :: CheckField(rules, f, k) }

  /** Where -w stands in a command line, or its length. */
  function WorkingDirectory(command: seq<Json>): (i: nat)
    ensures i <= |command|
  {
    if command == [] || command[0] == Text("-w") then 0 else 1 + WorkingDirectory(command[1..])
  }

  /** The guard of the stripping branch. */
  predicate ContainerRun(command: seq<Json>) {
    |command| >= 2 && command[0] == Text("docker") && command[1] == Text("run")
  }

  /** The command inside the container: what follows the working directory and the image. */
  function Stripped(command: seq<Json>): seq<Json> {
    if !ContainerRun(command) then command
    else
      var i := WorkingDirectory(command);
      if i == |command| then [] else if i + 3 <= |command| then command[i + 3..] else []
  }

  predicate Copied(k: Key) { k.Returncode? || k.TimedOut? || k.DurationMs? || k.Observation? }

  predicate Output(k: Key) { k.Command? || k.Stdout? || k.Stderr? }

  /** The container failed before the command could run. */
  predicate SandboxFailed(rules: Rules, f: Fields) {
    Get(f, Returncode, Null) in {Num(125), Num(126), Num(127)} && rules.daemon(Get(f, Stderr, Text("")))
  }

  function CommandField(rules: Rules, f: Fields, k: Key): Json {
    match k
    case Command => Arr(Stripped(Items(Get(f, Command, Null))))
    case Stdout => if SandboxFailed(rules, f) then Text("") else Get(f, Stdout, Text(""))
    case Stderr => if SandboxFailed(rules, f) then SANDBOX_FAILED else Get(f, Stderr, Text(""))
    case _ => Get(f, k, Null)
  }

  function CommandView(rules: Rules, f: Fields): Fields {
    map k | k in f.Keys + {Command, Stdout, Stderr} && (Copied(k) || Output(k)) :: CommandField(rules, f, k)
  }

  predicate Dropped(rules: Rules, f: Fields, k: Key) {
    rules.omitted(k) || k == Argv || k == ServerArgv || k == ServerStdout || k == SourceLocations || (k == Path && Sha256 in f)
  }

  function Safe(rules: Rules, v: Json): (r: Json)
    requires v.Obj?
    ensures r.Obj?
    decreases v, 0
  {
    var f := v.fields;
    if Variants in f then Obj(VerificationView(rules, f))
    else if IsDetail(f) then Obj(DetailView(rules, f, Arr(rules.locations(f))))
    else if IsRow(f) then Obj(RowView(rules, f))
    else if IsCommand(f) then Obj(CommandView(rules, f))
    else Obj(map k | k in f && !Dropped(rules, f, k) :: SafeValue(rules, f[k]))
  }

  /** Objects are projected, and those that stand directly in a list; anything else is as it was. */
  function SafeValue(rules: Rules, v: Json): Json
    decreases v, 1
  {
    match v
    case Obj(_) => Safe(rules, v)
    case Arr(items) => Arr(seq(|items|, i requires 0 <= i < |items| => if items[i].Obj? then Safe(rules, items[i]) else items[i]))
    case _ => v
  }

  // ------------------------------------------------------------------ projecting again

  predicate Scalar(v: Json) { !v.Obj? && !v.Arr? }

  /** Ids and categories of check rows are scalars, wherever the projection finds such a row. */
  predicate Typed(rules: Rules, v: Json)
    decreases v
  {
    match v
    case Obj(f) =>
      if Variants in f || IsDetail(f) || IsCommand(f) then true
      else if IsRow(f) then Scalar(Get(f, Id, Null)) && Scalar(Get(f, Category, Null))
      else forall k | k in f :: Typed(rules, f[k])
    case Arr(items) => forall i | 0 <= i < |items| :: Typed(rules, items[i])
    case _ => true
  }

  /** A bare detail without source positions, a command whose stripped form runs no container, and
      any object made of such values. */
  predicate Stable(rules: Rules, v: Json)
    decreases v
  {
    match v
    case Obj(f) =>
      if Variants in f || IsRow(f) then true
      else if IsDetail(f) then rules.locations(f) == []
      else if IsCommand(f) then
        !ContainerRun(Stripped(Items(Get(f, Command, Null))))
      else forall k | k in f && !Dropped(rules, f, k) :: Stable(rules, f[k])
    case Arr(items) => forall i | 0 <= i < |items| && items[i].Obj? :: Stable(rules, items[i])
    case _ => true
  }

  predicate IsPlain(f: Fields) { Variants !in f && !IsDetail(f) && !IsRow(f) && !IsCommand(f) }

  function PlainView(rules: Rules, f: Fields): Fields {
    map k | k in f && !Dropped(rules, f, k) :: SafeValue(rules, f[k])
  }

  /** An object of no special kind stays one, and none of its keys is dropped a second time. */
  lemma PlainAgain(rules: Rules, f: Fields)
    requires IsPlain(f)
    ensures Safe(rules, Obj(f)) == Obj(PlainView(rules, f)) && IsPlain(PlainView(rules, f))
    ensures forall k | k in PlainView(rules, f) :: !Dropped(rules, PlainView(rules, f), k)
  {
  }

  lemma {:induction false} ObservedIsSafe(rules: Rules, v: Json)
    requires Consistent(rules)
    ensures Safe(rules, Observed(rules, v)) == Observed(rules, v)
    decreases v
  {
    var f := Observed(rules, v).fields;
    forall k | k in f
      ensures !Dropped(rules, f, k) && SafeValue(rules, f[k]) == f[k]
      ensures k !in {Variants, Checks, ServerStdout, ServerArgv, Argv, Command}
    {
      assert rules.carries(k) != Nothing;
      if v.fields[k].Obj? { ObservedIsSafe(rules, v.fields[k]); }
    }
  }

  lemma RowKeys(rules: Rules, f: Fields)
    requires Consistent(rules) && IsRow(f)
    ensures var once := RowView(rules, f);
      IsPlain(once) && forall k | k in once :: !Dropped(rules, once, k)
  {
  }

  lemma RowFieldFixed(rules: Rules, f: Fields, k: Key)
    requires Consistent(rules) && IsRow(f) && Typed(rules, Obj(f)) && k in ROW_KEYS
    ensures SafeValue(rules, CheckField(rules, f, k)) == CheckField(rules, f, k)
  {
    if k == Observation { ObservedIsSafe(rules, Get(f, Observation, Null)); }
  }

  lemma RowAgain(rules: Rules, f: Fields)
    requires Consistent(rules) && IsRow(f) && Typed(rules, Obj(f))
    ensures Safe(rules, Safe(rules, Obj(f))) == Safe(rules, Obj(f))
  {
    var once := RowView(rules, f);
    RowKeys(rules, f);
    forall k | k in once ensures SafeValue(rules, once[k]) == once[k] {
      RowFieldFixed(rules, f, k);
    }
  }

  /** Stripping again changes nothing exactly when what is left runs no container. */
  lemma StrippedAgainIff(command: seq<Json>)
    ensures Stripped(Stripped(command)) == Stripped(command) <==> !ContainerRun(Stripped(command))
  {
    if ContainerRun(Stripped(command)) { assert |Stripped(Stripped(command))| < |Stripped(command)|; }
  }

  lemma CommandTwice(rules: Rules, f: Fields, k: Key)
    requires Consistent(rules) && IsCommand(f) && k in CommandView(rules, f)
    ensures CommandField(rules, CommandView(rules, f), k) ==
      if k == Command then Arr(Stripped(Stripped(Items(Get(f, Command, Null))))) else CommandField(rules, f, k)
  {
    var once := CommandView(rules, f);
    assert Get(once, Returncode, Null) == Get(f, Returncode, Null);
    assert Get(once, Stderr, Text("")) == CommandField(rules, f, Stderr);
    assert Get(once, k, Null) == CommandField(rules, f, k);
  }

  lemma CommandViewAgain(rules: Rules, f: Fields)
    requires Consistent(rules) && IsCommand(f)
    ensures CommandView(rules, CommandView(rules, f)) == CommandView(rules, f)
      <==> !ContainerRun(Stripped(Items(Get(f, Command, Null))))
  {
    var once := CommandView(rules, f);
    var twice := CommandView(rules, once);
    CommandKeysStay(rules, f);
    forall k | k in once ensures twice[k] == once[k] <==> k != Command || !ContainerRun(Stripped(Items(Get(f, Command, Null)))) {
      CommandTwice(rules, f, k);
      StrippedAgainIff(Items(Get(f, Command, Null)));
    }
    SameFields(twice, once);
  }

  lemma CommandKeysStay(rules: Rules, f: Fields)
    ensures CommandView(rules, CommandView(rules, f)).Keys == CommandView(rules, f).Keys
    ensures Command in CommandView(rules, f)
  {
  }

  lemma SameFields(f: Fields, g: Fields)
    requires f.Keys == g.Keys
    ensures f == g <==> forall k | k in g :: f[k] == g[k]
  {
  }

  lemma CommandStays(rules: Rules, f: Fields)
    requires IsCommand(f)
    ensures IsCommand(CommandView(rules, f))
  {
  }

  lemma CommandAgain(rules: Rules, f: Fields)
    requires Consistent(rules) && IsCommand(f)
    ensures Safe(rules, Safe(rules, Obj(f))) == Safe(rules, Obj(f)) <==> Stable(rules, Obj(f))
  {
    CommandStays(rules, f);
    CommandViewAgain(rules, f);
  }

  lemma DetailAgain(rules: Rules, f: Fields)
    requires Consistent(rules) && IsDetail(f)
    ensures Safe(rules, Safe(rules, Obj(f))) == Safe(rules, Obj(f)) <==> rules.locations(f) == []
  {
    var once, twice := DetailView(rules, f, Arr(rules.locations(f))), DetailView(rules, f, Arr([]));
    DetailViewAgain(rules, f, Arr(rules.locations(f)), Arr([]));
    assert ProjectRoot !in once && IsDetail(once);
    assert Safe(rules, Obj(once)) == Obj(twice);
    assert twice[SourceLocations] == Arr([]) && once[SourceLocations] == Arr(rules.locations(f));
  }

  /** Projecting a published result again changes nothing exactly when, wherever the projection finds
      them, details outside a list of variants have no source positions and stripped commands are not
      container invocations themselves. */
  lemma {:induction false} SafeAgainIff(rules: Rules, v: Json)
    requires Consistent(rules) && Typed(rules, v)
    ensures SafeValue(rules, SafeValue(rules, v)) == SafeValue(rules, v) <==> Stable(rules, v)
    decreases v, 1
  {
    match v
    case Obj(f) =>
      if Variants in f {
        VerificationViewAgain(rules, f);
      } else if IsDetail(f) {
        DetailAgain(rules, f);
      } else if IsRow(f) {
        RowAgain(rules, f);
      } else if IsCommand(f) {
        CommandAgain(rules, f);
      } else {
        PlainAgainIff(rules, f);
      }
    case Arr(items) => ListAgainIff(rules, items);
    case _ =>
  }

  lemma {:induction false} PlainAgainIff(rules: Rules, f: Fields)
    requires Consistent(rules) && IsPlain(f) && Typed(rules, Obj(f))
    ensures Safe(rules, Safe(rules, Obj(f))) == Safe(rules, Obj(f)) <==> Stable(rules, Obj(f))
    decreases Obj(f), 0
  {
    var once := PlainView(rules, f);
    PlainAgain(rules, f);
    PlainAgain(rules, once);
    var twice := PlainView(rules, once);
    forall k | k in once ensures twice[k] == once[k] <==> Stable(rules, f[k]) {
      SafeAgainIff(rules, f[k]);
    }
    assert twice.Keys == once.Keys;
    assert twice == once <==> forall k | k in once :: twice[k] == once[k];
  }

  lemma {:induction false} ListAgainIff(rules: Rules, items: seq<Json>)
    requires Consistent(rules) && Typed(rules, Arr(items))
    ensures SafeValue(rules, SafeValue(rules, Arr(items))) == SafeValue(rules, Arr(items)) <==> Stable(rules, Arr(items))
    decreases Arr(items), 0
  {
    var once := SafeValue(rules, Arr(items)).items;
    var twice := SafeValue(rules, Arr(once)).items;
    forall i | 0 <= i < |items| ensures twice[i] == once[i] <==> (items[i].Obj? ==> Stable(rules, items[i])) {
      SafeAgainIff(rules, items[i]);
    }
    assert twice == once <==> forall i | 0 <= i < |items| :: twice[i] == once[i];
  }

  /** A container command that itself runs a container is stripped once more. */
  lemma StrippedTwice() returns (command: seq<Json>)
    ensures Stripped(Stripped(command)) != Stripped(command)
  {
    var inner := [Text("docker"), Text("run")];
    command := [Text("docker"), Text("run"), Text("-w"), Text("/workspace"), Text("image")] + inner;
    assert command[0] == Text("docker") && command[1] == Text("run");
    assert command[1..][1..] == command[2..] && command[2..][0] == Text("-w");
    assert WorkingDirectory(command[2..]) == 0 && WorkingDirectory(command) == 2;
    assert command[5..] == inner;
    assert inner[1..][1..] == [] && WorkingDirectory(inner) == 2;
  }

  // ------------------------------------------------------------------ what is published

  /** Which part of the projection an object meets: the key it holds decides, the first of these that applies. */
  lemma SafeByKind(rules: Rules, f: Fields)
    ensures var r := Safe(rules, Obj(f)).fields;
      if Variants in f then r == VerificationView(rules, f)
      else if Checks in f || ServerStdout in f || ServerArgv in f then r == DetailView(rules, f, Arr(rules.locations(f)))
      else if Argv in f && (ReqIds in f || Category in f) then
        r.Keys == {Id, Category, Passed, Observation} && forall k | k in r :: r[k] == CheckRow(rules, f)[k]
      else if Command in f && Returncode in f then r == CommandView(rules, f)
      else
        && (forall k :: k in r <==> (k in f && !rules.omitted(k) && k !in {Argv, ServerArgv, ServerStdout, SourceLocations}
                                     && !(k == Path && Sha256 in f)))
        && forall k | k in r :: r[k] == SafeValue(rules, f[k])
  {
  }

  /** An observation keeps exactly the keys whose value is of the kind its key carries: a number up to two to the 31st, a
      plain word, a flag, or an object, which is filtered in turn. */
  lemma ObservedExactly(rules: Rules, f: Fields, k: Key)
    ensures var r := Observed(rules, Obj(f)).fields;
      && (k in r <==>
            && k in f
            && (|| (rules.carries(k) == Nested && f[k].Obj?)
                || (rules.carries(k) == Count && f[k].Num? && 0 <= f[k].number && f[k].number <= 2147483648)
                || (rules.carries(k) == Word && f[k].Text? && rules.plain(f[k].text))
                || (rules.carries(k) == Flag && f[k].Bool?)))
      && (k in r ==> r[k] == if f[k].Obj? then Observed(rules, f[k]) else f[k])
  {
  }

  /** What is not an object is no observation. */
  lemma NoObservation(rules: Rules, v: Json)
    requires !v.Obj?
    ensures Observed(rules, v) == Obj(map[])
  {
  }

  /** A published check, key by key: passed only where the raw row says true, with the status to match, its category or the
      default, and its observation filtered. */
  lemma CheckSays(rules: Rules, f: Fields, k: Key)
    ensures k in CheckRow(rules, f) <==> k == Id || k == Category || k == Passed || k == Status || k == Observation
    ensures var passed := Passed in f && f[Passed] == Bool(true);
      k in CheckRow(rules, f) ==>
        CheckRow(rules, f)[k] ==
          if k == Passed then Bool(passed)
          else if k == Status then Text(if passed then "passed" else "failed")
          else if k == Observation then (if k in f then Observed(rules, f[k]) else Obj(map[]))
          else if k in f then f[k]
          else if k == Category then Text("checker_result_invalid") else Null
  {
    if k in CheckRow(rules, f) { assert CheckRow(rules, f)[k] == CheckField(rules, f, k); }
  }

  /** A published detail, key by key: the checks in order, the server's end as it was, the positions given, and of the
      server's output only that it is left out. */
  lemma DetailSays(rules: Rules, f: Fields, locations: Json, k: Key)
    ensures k in DetailView(rules, f, locations) <==>
      || k == Passed || k == ServerReturncode || k == EarlyExit || k == StopTimeout || k == SanitizerError
      || k == SanitizerCategories || k == OutputTruncated || k == SourceLocations || k == ServerOutput || k == Checks
    ensures k in DetailView(rules, f, locations) && k != SanitizerCategories && k != Checks ==>
      DetailView(rules, f, locations)[k] ==
        if k == Passed then Bool(k in f && f[k] == Bool(true))
        else if k == SourceLocations then locations
        else if k == ServerOutput then Text("omitted")
        else if k in f then f[k]
        else if k == OutputTruncated then Bool(false) else Null
  {
    if k in DetailView(rules, f, locations) { assert DetailView(rules, f, locations)[k] == DetailField(rules, f, locations, k); }
  }

  /** Of the sanitizer's categories the three known ones, in this order. */
  lemma CategoriesSay(rules: Rules, f: Fields, locations: Json)
    ensures var given := if SanitizerCategories in f && f[SanitizerCategories].Arr? then f[SanitizerCategories].items else [];
      SanitizerCategories in DetailView(rules, f, locations)
      && DetailView(rules, f, locations)[SanitizerCategories] ==
        Arr((if Text("address") in given then [Text("address")] else [])
          + (if Text("undefined") in given then [Text("undefined")] else [])
          + (if Text("leak") in given then [Text("leak")] else []))
  {
  }

  lemma ChecksSay(rules: Rules, f: Fields, locations: Json)
    ensures var rows := if Checks in f && f[Checks].Arr? then f[Checks].items else [];
      var r := DetailView(rules, f, locations);
      && Checks in r && r[Checks].Arr? && |r[Checks].items| == |rows|
      && forall i | 0 <= i < |rows| :: r[Checks].items[i] == Obj(CheckRow(rules, if rows[i].Obj? then rows[i].fields else map[]))
  {
  }

  /** A published verification: marked as published and private, passed only where the raw result says true, with every
      variant in order, and for each its own id, its own pass and its detail; the positions are those of the logs the
      first time and those already published after that. */
  lemma VerificationSays(rules: Rules, f: Fields)
    ensures var r := VerificationView(rules, f);
      var rows := if Variants in f && f[Variants].Arr? then f[Variants].items else [];
      var published := DiagnosticVersion in f && f[DiagnosticVersion] == Text("repair-diagnostic/1");
      && r.Keys == {DiagnosticVersion, Exposure, Passed, Variants}
      && r[DiagnosticVersion] == Text("repair-diagnostic/1") && r[Exposure] == Text("private_isolated")
      && r[Passed] == Bool(Passed in f && f[Passed] == Bool(true))
      && r[Variants].Arr? && |r[Variants].items| == |rows|
      && forall i | 0 <= i < |rows| :: VariantSaid(rules, published, rows[i], r[Variants].items[i])
  {
    var rows := Items(Get(f, Variants, Null));
    forall i | 0 <= i < |rows|
      ensures VariantSaid(rules, Get(f, DiagnosticVersion, Null) == PUBLISHED, rows[i],
                          VariantView(rules, Get(f, DiagnosticVersion, Null) == PUBLISHED, rows[i]))
    {
    }
  }

  predicate VariantSaid(rules: Rules, published: bool, raw: Json, said: Json) {
    var v := if raw.Obj? then raw.fields else map[];
    var detail := if Detail in v && v[Detail].Obj? then v[Detail].fields else map[];
    && said.Obj? && said.fields.Keys == {Variant, Passed, Detail}
    && said.fields[Variant] == (if Variant in v then v[Variant] else Null)
    && said.fields[Passed] == Bool(Passed in v && v[Passed] == Bool(true))
    && said.fields[Detail] == Obj(DetailView(rules, detail,
         if !published then Arr(rules.locations(detail))
         else if SourceLocations in detail then detail[SourceLocations] else Arr([])))
  }

  /** Without the working directory a container's command line is dropped; with it, what follows the directory and the
      image is left. Any other command stays. */
  lemma StrippedIs(command: seq<Json>, i: nat)
    requires i <= |command| && (i < |command| ==> command[i] == Text("-w")) && forall j | 0 <= j < i :: command[j] != Text("-w")
    ensures Stripped(command) ==
      if |command| >= 2 && command[0] == Text("docker") && command[1] == Text("run") then
        if i == |command| || i + 3 > |command| then [] else command[i + 3..]
      else command
  {
    FirstDirectory(command, i);
  }

  lemma {:induction false} FirstDirectory(command: seq<Json>, i: nat)
    requires i <= |command| && (i < |command| ==> command[i] == Text("-w")) && forall j | 0 <= j < i :: command[j] != Text("-w")
    ensures WorkingDirectory(command) == i
    decreases i
  {
    if i > 0 { FirstDirectory(command[1..], i - 1); }
  }

  /** A published command, key by key: what ran inside the container, how it ended, and its output, unless the container
      failed with the daemon's words before the command could run. */
  lemma CommandSays(rules: Rules, f: Fields, k: Key)
    ensures k in CommandView(rules, f) <==>
      || k == Command || k == Stdout || k == Stderr
      || (k in f && (k == Returncode || k == TimedOut || k == DurationMs || k == Observation))
    ensures var failed := Returncode in f && (f[Returncode] == Num(125) || f[Returncode] == Num(126) || f[Returncode] == Num(127))
        && rules.daemon(if Stderr in f then f[Stderr] else Text(""));
      k in CommandView(rules, f) ==>
        CommandView(rules, f)[k] ==
          if k == Command then Arr(Stripped(if k in f && f[k].Arr? then f[k].items else []))
          else if k == Stdout && failed then Text("")
          else if k == Stderr && failed then Text("sandbox execution failed")
          else if k in f then f[k] else Text("")
  {
    if k in CommandView(rules, f) { assert CommandView(rules, f)[k] == CommandField(rules, f, k); }
  }

  // ------------------------------------------------------------------ what is never published

  /** The keys of what is kept on the host. */
  predicate HostOnly(rules: Rules, k: Key) { rules.omitted(k) || k.Argv? || k.ServerArgv? || k.ServerStdout? }

  /** Nothing in the value, however deep, stands under a key of what is kept on the host. */
  predicate Clean(rules: Rules, v: Json)
    decreases v
  {
    match v
    case Obj(f) => forall k | k in f :: !HostOnly(rules, k) && Clean(rules, f[k])
    case Arr(items) => forall i | 0 <= i < |items| :: Clean(rules, items[i])
    case _ => true
  }

  /** When each field is clean under a condition of its own, the object is clean under all of them. */
  lemma CleanBy(rules: Rules, r: Fields, at: Key -> bool)
    requires forall k | k in r :: !HostOnly(rules, k) && (Clean(rules, r[k]) <==> at(k))
    ensures Clean(rules, Obj(r)) <==> forall k | k in r :: at(k)
  {
  }

  predicate CleanAt(rules: Rules, f: Fields, k: Key) { k in f ==> Clean(rules, f[k]) }

  predicate CheckClean(rules: Rules, f: Fields) { CleanAt(rules, f, Id) && CleanAt(rules, f, Category) }

  predicate ChecksClean(rules: Rules, rows: seq<Json>) { forall i | 0 <= i < |rows| :: CheckClean(rules, FieldsOf(rows[i])) }

  /** What a detail hands on as it is. */
  predicate DetailClean(rules: Rules, f: Fields, locations: Json) {
    && CleanAt(rules, f, ServerReturncode) && CleanAt(rules, f, EarlyExit) && CleanAt(rules, f, StopTimeout)
    && CleanAt(rules, f, SanitizerError) && CleanAt(rules, f, OutputTruncated) && Clean(rules, locations)
    && ChecksClean(rules, Items(Get(f, Checks, Null)))
  }

  predicate VariantClean(rules: Rules, published: bool, v: Fields) {
    var detail := FieldsOf(Get(v, Detail, Null));
    CleanAt(rules, v, Variant) && DetailClean(rules, detail, LocationsOf(rules, published, detail))
  }

  /** Whatever the projection hands on without looking into it is clean. */
  predicate CopiesClean(rules: Rules, v: Json)
    decreases v
  {
    match v
    case Obj(f) =>
      if Variants in f then
        forall i | 0 <= i < |Items(f[Variants])| ::
          VariantClean(rules, Get(f, DiagnosticVersion, Null) == PUBLISHED, FieldsOf(Items(f[Variants])[i]))
      else if IsDetail(f) then DetailClean(rules, f, Arr(rules.locations(f)))
      else if IsRow(f) then CheckClean(rules, f)
      else if IsCommand(f) then CommandClean(rules, f)
      else forall k | k in f && !Dropped(rules, f, k) :: CopiesClean(rules, f[k])
    case Arr(items) => forall i | 0 <= i < |items| :: if items[i].Obj? then CopiesClean(rules, items[i]) else Clean(rules, items[i])
    case _ => true
  }

  predicate CommandClean(rules: Rules, f: Fields) {
    && CleanAt(rules, f, Returncode) && CleanAt(rules, f, TimedOut) && CleanAt(rules, f, DurationMs) && CleanAt(rules, f, Observation)
    && Clean(rules, Arr(Stripped(Items(Get(f, Command, Null)))))
    && (!SandboxFailed(rules, f) ==> CleanAt(rules, f, Stdout) && CleanAt(rules, f, Stderr))
  }

  /** The keys the published views are made of. */
  predicate InViews(k: Key) {
    || k.DiagnosticVersion? || k.Exposure? || k.Variants? || k.Variant? || k.Passed? || k.Detail?
    || k.ServerReturncode? || k.EarlyExit? || k.StopTimeout? || k.SanitizerError? || k.SanitizerCategories?
    || k.OutputTruncated? || k.SourceLocations? || k.ServerOutput? || k.Checks?
    || k.Id? || k.Category? || k.Status? || k.Observation?
    || k.Command? || k.Returncode? || k.TimedOut? || k.DurationMs? || k.Stdout? || k.Stderr?
  }

  /** None of them is among those kept on the host. */
  ghost predicate Publishable(rules: Rules) { forall k {:trigger InViews(k)} :: InViews(k) ==> !rules.omitted(k) }

  lemma {:induction false} ObservedClean(rules: Rules, v: Json)
    requires Consistent(rules)
    ensures Clean(rules, Observed(rules, v))
    decreases v
  {
    if v.Obj? {
      var f := Observed(rules, v).fields;
      forall k | k in f ensures !HostOnly(rules, k) && Clean(rules, f[k]) {
        assert rules.carries(k) != Nothing;
        if v.fields[k].Obj? { ObservedClean(rules, v.fields[k]); }
      }
    }
  }

  predicate CheckCleanAt(rules: Rules, f: Fields, k: Key) { k == Id || k == Category ==> CleanAt(rules, f, k) }

  lemma CheckKeyClean(rules: Rules, f: Fields, k: Key)
    requires Consistent(rules) && Publishable(rules) && k in CheckRow(rules, f)
    ensures !HostOnly(rules, k) && (Clean(rules, CheckRow(rules, f)[k]) <==> CheckCleanAt(rules, f, k))
  {
    CheckSays(rules, f, k);
    assert InViews(k);
    if k == Observation && k in f { ObservedClean(rules, f[k]); }
  }

  lemma CheckCleanIff(rules: Rules, f: Fields)
    requires Consistent(rules) && Publishable(rules)
    ensures Clean(rules, Obj(CheckRow(rules, f))) <==> CheckClean(rules, f)
  {
    forall k | k in CheckRow(rules, f)
      ensures !HostOnly(rules, k) && (Clean(rules, CheckRow(rules, f)[k]) <==> CheckCleanAt(rules, f, k))
    {
      CheckKeyClean(rules, f, k);
    }
    CleanBy(rules, CheckRow(rules, f), (k: Key) => CheckCleanAt(rules, f, k));
    CheckSays(rules, f, Id);
    CheckSays(rules, f, Category);
    CheckAtKeys(rules, f);
  }

  lemma CheckAtKeys(rules: Rules, f: Fields)
    ensures CheckClean(rules, f) <==> CheckCleanAt(rules, f, Id) && CheckCleanAt(rules, f, Category)
    ensures CheckClean(rules, f) ==> forall k :: CheckCleanAt(rules, f, k)
  {
  }

  lemma ChecksCleanIff(rules: Rules, rows: seq<Json>)
    requires Consistent(rules) && Publishable(rules)
    ensures Clean(rules, Arr(CheckViews(rules, rows))) <==> ChecksClean(rules, rows)
  {
    forall i | 0 <= i < |rows| ensures Clean(rules, CheckViews(rules, rows)[i]) <==> CheckClean(rules, FieldsOf(rows[i])) {
      CheckCleanIff(rules, FieldsOf(rows[i]));
    }
  }

  lemma DetailCleanIff(rules: Rules, f: Fields, locations: Json)
    requires Consistent(rules) && Publishable(rules)
    ensures Clean(rules, Obj(DetailView(rules, f, locations))) <==> DetailClean(rules, f, locations)
  {
    forall k | k in DetailView(rules, f, locations)
      ensures !HostOnly(rules, k)
      ensures Clean(rules, DetailView(rules, f, locations)[k]) <==> DetailCleanAt(rules, f, locations, k)
    {
      DetailKeyClean(rules, f, locations, k);
    }
    CleanBy(rules, DetailView(rules, f, locations), (k: Key) => DetailCleanAt(rules, f, locations, k));
    DetailKeys(rules, f, locations);
    DetailCleanAtAll(rules, f, locations);
  }

  lemma DetailKeys(rules: Rules, f: Fields, locations: Json)
    ensures forall k :: DetailCopies(k) ==> k in DetailView(rules, f, locations)
  {
  }

  /** The keys of a detail whose values are handed on. */
  predicate DetailCopies(k: Key) {
    || k.ServerReturncode? || k.EarlyExit? || k.StopTimeout? || k.SanitizerError? || k.OutputTruncated?
    || k.SourceLocations? || k.Checks?
  }

  lemma DetailCleanAtAll(rules: Rules, f: Fields, locations: Json)
    ensures DetailClean(rules, f, locations) <==> forall k | DetailCopies(k) :: DetailCleanAt(rules, f, locations, k)
    ensures forall k | !DetailCopies(k) :: DetailCleanAt(rules, f, locations, k)
  {
    forall k ensures DetailClean(rules, f, locations) ==> DetailCleanAt(rules, f, locations, k) {
    }
    assert DetailCopies(ServerReturncode) && DetailCopies(EarlyExit) && DetailCopies(StopTimeout) && DetailCopies(SanitizerError);
    assert DetailCopies(OutputTruncated) && DetailCopies(SourceLocations) && DetailCopies(Checks);
  }

  predicate DetailCleanAt(rules: Rules, f: Fields, locations: Json, k: Key) {
    if k == SourceLocations then Clean(rules, locations)
    else if k == Checks then ChecksClean(rules, Items(Get(f, Checks, Null)))
    else if k == ServerReturncode || k == EarlyExit || k == StopTimeout || k == SanitizerError || k == OutputTruncated then
      CleanAt(rules, f, k)
    else true
  }

  lemma DetailKeyClean(rules: Rules, f: Fields, locations: Json, k: Key)
    requires Consistent(rules) && Publishable(rules) && k in DetailView(rules, f, locations)
    ensures !HostOnly(rules, k)
    ensures Clean(rules, DetailView(rules, f, locations)[k]) <==> DetailCleanAt(rules, f, locations, k)
  {
    DetailKeyPublic(rules, f, locations, k);
    if k == Checks {
      DetailChecksClean(rules, f, locations);
    } else if k == SanitizerCategories {
      CategoriesSay(rules, f, locations);
      CategoriesClean(rules, Get(f, SanitizerCategories, Null));
    } else {
      DetailSays(rules, f, locations, k);
      DetailValueClean(rules, f, locations, k, DetailView(rules, f, locations)[k]);
    }
  }

  lemma DetailKeyPublic(rules: Rules, f: Fields, locations: Json, k: Key)
    requires Publishable(rules) && k in DetailView(rules, f, locations)
    ensures !HostOnly(rules, k)
  {
    DetailSays(rules, f, locations, k);
    assert InViews(k);
  }

  lemma DetailChecksClean(rules: Rules, f: Fields, locations: Json)
    requires Consistent(rules) && Publishable(rules)
    ensures Checks in DetailView(rules, f, locations)
    ensures Clean(rules, DetailView(rules, f, locations)[Checks]) <==> ChecksClean(rules, Items(Get(f, Checks, Null)))
  {
    assert DetailView(rules, f, locations)[Checks] == DetailField(rules, f, locations, Checks);
    ChecksCleanIff(rules, Items(Get(f, Checks, Null)));
  }

  lemma CategoriesClean(rules: Rules, v: Json)
    ensures Clean(rules, Named3(v))
  {
    forall i | 0 <= i < |Named3(v).items| ensures Clean(rules, Named3(v).items[i]) { ScalarClean(rules, Named3(v).items[i]); }
  }

  lemma DetailValueClean(rules: Rules, f: Fields, locations: Json, k: Key, v: Json)
    requires !k.Checks? && !k.SanitizerCategories?
    requires k.Passed? || k.ServerOutput? || DetailCopies(k)
    requires v ==
      if k.Passed? then Bool(k in f && f[k] == Bool(true))
      else if k.SourceLocations? then locations
      else if k.ServerOutput? then Text("omitted")
      else if k in f then f[k]
      else if k.OutputTruncated? then Bool(false) else Null
    ensures Clean(rules, v) <==> DetailCleanAt(rules, f, locations, k)
  {
  }

  predicate VariantCleanAt(rules: Rules, published: bool, v: Fields, k: Key) {
    var detail := FieldsOf(Get(v, Detail, Null));
    if k == Variant then CleanAt(rules, v, Variant)
    else k == Detail ==> DetailClean(rules, detail, LocationsOf(rules, published, detail))
  }

  lemma VariantKeyClean(rules: Rules, published: bool, v: Fields, k: Key)
    requires Consistent(rules) && Publishable(rules) && (k.Variant? || k.Passed? || k.Detail?)
    ensures !HostOnly(rules, k) && (Clean(rules, VariantField(rules, published, v, k)) <==> VariantCleanAt(rules, published, v, k))
  {
    assert InViews(k);
    if k.Detail? {
      var detail := FieldsOf(Get(v, Detail, Null));
      DetailCleanIff(rules, detail, LocationsOf(rules, published, detail));
    }
  }

  lemma VariantCleanIff(rules: Rules, published: bool, variant: Json)
    requires Consistent(rules) && Publishable(rules)
    ensures Clean(rules, VariantView(rules, published, variant)) <==> VariantClean(rules, published, FieldsOf(variant))
  {
    var v := FieldsOf(variant);
    var r := VariantView(rules, published, variant).fields;
    forall k | k in r ensures !HostOnly(rules, k) && (Clean(rules, r[k]) <==> VariantCleanAt(rules, published, v, k)) {
      VariantKeyClean(rules, published, v, k);
    }
    CleanBy(rules, r, (k: Key) => VariantCleanAt(rules, published, v, k));
    assert Variant in r && Detail in r;
  }

  lemma VariantsCleanIff(rules: Rules, published: bool, rows: seq<Json>)
    requires Consistent(rules) && Publishable(rules)
    ensures Clean(rules, Arr(VariantViews(rules, published, rows))) <==>
      forall i | 0 <= i < |rows| :: VariantClean(rules, published, FieldsOf(rows[i]))
  {
    forall i | 0 <= i < |rows|
      ensures Clean(rules, VariantViews(rules, published, rows)[i]) <==> VariantClean(rules, published, FieldsOf(rows[i]))
    {
      VariantCleanIff(rules, published, rows[i]);
    }
  }

  lemma VerificationKeyClean(rules: Rules, f: Fields, k: Key)
    requires Publishable(rules) && (k.DiagnosticVersion? || k.Exposure? || k.Passed? || k.Variants?)
    ensures !HostOnly(rules, k) && (!k.Variants? ==> Clean(rules, VerificationField(rules, f, k)))
  {
    assert InViews(k);
    if !k.Variants? { ScalarClean(rules, VerificationField(rules, f, k)); }
  }

  lemma ScalarClean(rules: Rules, v: Json)
    requires !v.Obj? && !v.Arr?
    ensures Clean(rules, v)
  {
  }

  lemma VerificationCleanIff(rules: Rules, f: Fields)
    requires Consistent(rules) && Publishable(rules) && Variants in f
    ensures Clean(rules, Obj(VerificationView(rules, f))) <==> CopiesClean(rules, Obj(f))
  {
    var r, rows, published := VerificationView(rules, f), Items(f[Variants]), Get(f, DiagnosticVersion, Null) == PUBLISHED;
    VariantsCleanIff(rules, published, rows);
    var all := Clean(rules, Arr(VariantViews(rules, published, rows)));
    forall k | k in r ensures !HostOnly(rules, k) && (Clean(rules, r[k]) <==> (k == Variants ==> all)) {
      VerificationKeyClean(rules, f, k);
    }
    CleanBy(rules, r, (k: Key) => k == Variants ==> all);
    assert Variants in r;
    CopiesOfVerification(rules, f);
  }

  lemma CopiesOfVerification(rules: Rules, f: Fields)
    requires Variants in f
    ensures CopiesClean(rules, Obj(f)) <==> forall i | 0 <= i < |Items(f[Variants])| ::
      VariantClean(rules, Get(f, DiagnosticVersion, Null) == PUBLISHED, FieldsOf(Items(f[Variants])[i]))
  {
  }

  lemma CommandKeyClean(rules: Rules, f: Fields, k: Key)
    requires Publishable(rules) && k in CommandView(rules, f)
    ensures !HostOnly(rules, k) && (Clean(rules, CommandView(rules, f)[k]) <==> CommandCleanAt(rules, f, k))
  {
    CommandSays(rules, f, k);
    assert InViews(k);
  }

  lemma CommandCleanIff(rules: Rules, f: Fields)
    requires Publishable(rules)
    ensures Clean(rules, Obj(CommandView(rules, f))) <==> CommandClean(rules, f)
  {
    forall k | k in CommandView(rules, f)
      ensures !HostOnly(rules, k) && (Clean(rules, CommandView(rules, f)[k]) <==> CommandCleanAt(rules, f, k))
    {
      CommandKeyClean(rules, f, k);
    }
    CleanBy(rules, CommandView(rules, f), (k: Key) => CommandCleanAt(rules, f, k));
    CommandAtKeys(rules, f);
  }

  lemma CommandAtKeys(rules: Rules, f: Fields)
    ensures (forall k | k in CommandView(rules, f) :: CommandCleanAt(rules, f, k)) <==> CommandClean(rules, f)
  {
    CommandKeys(rules, f);
    CommandCleanAtAll(rules, f);
  }

  lemma CommandCleanAtAll(rules: Rules, f: Fields)
    ensures CommandClean(rules, f) <==>
      && CommandCleanAt(rules, f, Command) && CommandCleanAt(rules, f, Stdout) && CommandCleanAt(rules, f, Stderr)
      && CommandCleanAt(rules, f, Returncode) && CommandCleanAt(rules, f, TimedOut)
      && CommandCleanAt(rules, f, DurationMs) && CommandCleanAt(rules, f, Observation)
    ensures forall k | k !in f && k != Command :: CommandCleanAt(rules, f, k)
  {
  }

  predicate CommandCleanAt(rules: Rules, f: Fields, k: Key) {
    if k == Command then Clean(rules, Arr(Stripped(Items(Get(f, Command, Null)))))
    else if k == Stdout || k == Stderr then SandboxFailed(rules, f) || CleanAt(rules, f, k)
    else CleanAt(rules, f, k)
  }

  lemma CommandKeys(rules: Rules, f: Fields)
    ensures Command in CommandView(rules, f) && Stdout in CommandView(rules, f) && Stderr in CommandView(rules, f)
    ensures forall k | k in CommandView(rules, f) ::
      k == Command || k == Stdout || k == Stderr || (k in f && (k == Returncode || k == TimedOut || k == DurationMs || k == Observation))
    ensures forall k | k in f && (k == Returncode || k == TimedOut || k == DurationMs || k == Observation) :: k in CommandView(rules, f)
  {
    forall k ensures k in CommandView(rules, f) <==>
      || k == Command || k == Stdout || k == Stderr
      || (k in f && (k == Returncode || k == TimedOut || k == DurationMs || k == Observation))
    {
      CommandSays(rules, f, k);
    }
  }

  /** A published value holds nothing under a key that is never published, at any depth, exactly when the values the
      projection hands on without looking into them hold nothing of the kind. */
  lemma {:induction false} PublishedCleanIff(rules: Rules, v: Json)
    requires Consistent(rules) && Publishable(rules)
    ensures Clean(rules, SafeValue(rules, v)) <==> CopiesClean(rules, v)
    decreases v, 1
  {
    match v
    case Obj(f) =>
      if Variants in f {
        VerificationCleanIff(rules, f);
      } else if IsDetail(f) {
        DetailCleanIff(rules, f, Arr(rules.locations(f)));
      } else if IsRow(f) {
        RowCleanIff(rules, f);
      } else if IsCommand(f) {
        CommandCleanIff(rules, f);
      } else {
        PlainCleanIff(rules, f);
      }
    case Arr(items) =>
      var r := SafeValue(rules, v).items;
      forall i | 0 <= i < |items|
        ensures Clean(rules, r[i]) <==> if items[i].Obj? then CopiesClean(rules, items[i]) else Clean(rules, items[i])
      {
        if items[i].Obj? { PublishedCleanIff(rules, items[i]); }
      }
    case _ =>
  }

  lemma RowCleanIff(rules: Rules, f: Fields)
    requires Consistent(rules) && Publishable(rules)
    ensures Clean(rules, Obj(RowView(rules, f))) <==> CheckClean(rules, f)
  {
    forall k | k in RowView(rules, f)
      ensures !HostOnly(rules, k) && (Clean(rules, RowView(rules, f)[k]) <==> CheckCleanAt(rules, f, k))
    {
      RowKeyClean(rules, f, k);
    }
    CleanBy(rules, RowView(rules, f), (k: Key) => CheckCleanAt(rules, f, k));
    assert Id in RowView(rules, f) && Category in RowView(rules, f);
    CheckAtKeys(rules, f);
  }

  lemma RowKeyClean(rules: Rules, f: Fields, k: Key)
    requires Consistent(rules) && Publishable(rules) && k in RowView(rules, f)
    ensures !HostOnly(rules, k) && (Clean(rules, RowView(rules, f)[k]) <==> CheckCleanAt(rules, f, k))
  {
    CheckSays(rules, f, k);
    assert RowView(rules, f)[k] == CheckField(rules, f, k) == CheckRow(rules, f)[k];
    CheckKeyClean(rules, f, k);
  }

  lemma {:induction false} PlainCleanIff(rules: Rules, f: Fields)
    requires Consistent(rules) && Publishable(rules) && IsPlain(f)
    ensures Clean(rules, Safe(rules, Obj(f))) <==> CopiesClean(rules, Obj(f))
    decreases Obj(f), 0
  {
    var r := PlainView(rules, f);
    PlainAgain(rules, f);
    forall k | k in r ensures Clean(rules, r[k]) <==> CopiesClean(rules, f[k]) { PublishedCleanIff(rules, f[k]); }
  }

  /** An object in a list inside a list is not looked into: whatever it holds is published. */
  lemma ListedIsPublished(rules: Rules, inner: Json)
    requires Publishable(rules) && !Clean(rules, inner)
    ensures var listed := Obj(map[Status := Arr([Arr([inner])])]);
      SafeValue(rules, listed) == listed && !Clean(rules, listed)
  {
    var f := map[Status := Arr([Arr([inner])])];
    assert InViews(Status);
    assert SafeValue(rules, f[Status]) == f[Status] by { assert SafeValue(rules, f[Status]).items == [Arr([inner])]; }
    assert PlainView(rules, f) == f;
    PlainAgain(rules, f);
    assert !Clean(rules, Arr([inner])) by { assert !Clean(rules, [inner][0]); }
    assert !Clean(rules, f[Status]) by { assert !Clean(rules, [Arr([inner])][0]); }
  }

  /** Nor is the observation of a command. */
  lemma ObservedIsPublished(rules: Rules, inner: Json)
    requires !Clean(rules, inner)
    ensures var observed := Obj(map[Command := Arr([]), Returncode := Num(0), Observation := inner]);
      && SafeValue(rules, observed).Obj? && Observation in SafeValue(rules, observed).fields
      && SafeValue(rules, observed).fields[Observation] == inner && !Clean(rules, SafeValue(rules, observed))
  {
    var f := map[Command := Arr([]), Returncode := Num(0), Observation := inner];
    assert IsCommand(f);
    CommandSays(rules, f, Observation);
  }
}
