/** Assembling one chat completion from the deltas of an event stream. */
module ChatStream {
  import opened Outcomes
  import opened EventStream

  datatype ToolDelta = ToolDelta(
    index: nat,
    id: Option<string>,
    kind: Option<string>,
    name: Option<string>,
    arguments: Option<string>)

  datatype Delta = Delta(content: Option<string>, reasoning: Option<string>, tools: seq<ToolDelta>)

  datatype Choices = Absent | Empty | One(delta: Delta, finish: Option<string>) | Several

  datatype Usage = NoUsage | BadUsage | Tokens(tokensIn: nat, tokensOut: nat)

  datatype Event = Event(model: Option<string>, choices: Choices, usage: Usage)

  /** What the data of one event decodes to; Malformed stands for anything ill-typed. */
  datatype Payload = Done | Malformed | Chunk(event: Event)

  datatype ChatError =
    | Stream(error: StreamError)
    | MalformedEvent
    | EndedEarly
    | InvalidModel
    | ModelChanged
    | SeveralChoices
    | NeitherChoicesNorUsage
    | ToolIdChanged
    | ToolKindChanged
    | InvalidFinish
    | InvalidUsage
    | NoFinalUsage
    | NoFinishReason
    | NoModelIdentity
    | WrongModel

  datatype Part = Part(id: Option<string>, kind: Option<string>, name: string, arguments: string)

  /** What the stream has said so far besides texts. */
  datatype Facts = Facts(tools: map<nat, Part>, model: Option<string>, finish: Option<string>, usage: Option<(nat, nat)>)

  datatype State = State(text: string, reasoning: string, facts: Facts)

  const START := State("", "", Facts(map[], None, None, None))

  datatype Answer = Answer(text: string, reasoning: string, tools: map<nat, Part>, usage: (nat, nat), finish: string)

  function Concat(parts: seq<string>): string {
    if |parts| == 0 then "" else Concat(parts[..|parts| - 1]) + parts[|parts| - 1]
  }

  function Appended(parts: seq<string>, more: Option<string>): seq<string> {
    if more.Some? then parts + [more.value] else parts
  }

  function Extended(text: string, more: Option<string>): string { if more.Some? then text + more.value else text }

  function PartAt(tools: map<nat, Part>, index: nat): Part {
    if index in tools then tools[index] else Part(None, None, "", "")
  }

  /** A delta of one tool call: identity and kind may be repeated but not changed. */
  function AddTool(tools: map<nat, Part>, d: ToolDelta): Result<map<nat, Part>, ChatError> {
    var part := PartAt(tools, d.index);
    if d.id.Some? && part.id.Some? && part.id != d.id then Err(ToolIdChanged)
    else if d.kind.Some? && part.kind.Some? && part.kind != d.kind then Err(ToolKindChanged)
    else Ok(tools[d.index := Part(
      if d.id.Some? then d.id else part.id,
      if d.kind.Some? then d.kind else part.kind,
      Extended(part.name, d.name),
      Extended(part.arguments, d.arguments))])
  }

  function AddTools(tools: map<nat, Part>, ds: seq<ToolDelta>): Result<map<nat, Part>, ChatError>
    decreases |ds|
  {
    if ds == [] then Ok(tools)
    else
      var added := AddTool(tools, ds[0]);
      if added.Err? then added else AddTools(added.value, ds[1..])
  }

  function AddModel(f: Facts, model: Option<string>): Result<Facts, ChatError> {
    if model.None? then Ok(f)
    else if model.value == "" then Err(InvalidModel)
    else if f.model.Some? && f.model != model then Err(ModelChanged)
    else Ok(f.(model := model))
  }

  function AddChoices(f: Facts, e: Event): Result<Facts, ChatError> {
    match e.choices
    case Absent => if e.usage.NoUsage? then Err(NeitherChoicesNorUsage) else Ok(f)
    case Empty => Ok(f)
    case Several => Err(SeveralChoices)
    case One(delta, finish) =>
      var tools := AddTools(f.tools, delta.tools);
      if tools.Err? then Err(tools.error)
      else if finish == Some("") then Err(InvalidFinish)
      else Ok(f.(tools := tools.value, finish := if finish.Some? then finish else f.finish))
  }

  function AddUsage(f: Facts, usage: Usage): Result<Facts, ChatError> {
    match usage
    case NoUsage => Ok(f)
    case BadUsage => Err(InvalidUsage)
    case Tokens(tokensIn, tokensOut) => Ok(f.(usage := Some((tokensIn, tokensOut))))
  }

  /** Everything one event adds besides text, or why the stream is refused at it. */
  function AddFacts(f: Facts, e: Event): Result<Facts, ChatError> {
    var named := AddModel(f, e.model);
    if named.Err? then named
    else
      var chosen := AddChoices(named.value, e);
      if chosen.Err? then chosen else AddUsage(chosen.value, e.usage)
  }

  function Content(e: Event): Option<string> { if e.choices.One? then e.choices.delta.content else None }

  function Reasoning(e: Event): Option<string> { if e.choices.One? then e.choices.delta.reasoning else None }

  function Step(s: State, e: Event): Result<State, ChatError> {
    var facts := AddFacts(s.facts, e);
    if facts.Err? then Err(facts.error)
    else Ok(State(Extended(s.text, Content(e)), Extended(s.reasoning, Reasoning(e)), facts.value))
  }

  function Conclude(s: State, requested: string): Result<Answer, ChatError> {
    if s.facts.usage.None? then Err(NoFinalUsage)
    else if s.facts.finish.None? then Err(NoFinishReason)
    else if s.facts.model.None? then Err(NoModelIdentity)
    else if s.facts.model.value != requested then Err(WrongModel)
    else Ok(Answer(s.text, s.reasoning, s.facts.tools, s.facts.usage.value, s.facts.finish.value))
  }

  /** The answer the payloads make: nothing after the end marker is looked at, not even a failure. */
  function Assemble(s: State, payloads: seq<Payload>, failure: Option<StreamError>, requested: string)
    : Result<Answer, ChatError>
    decreases |payloads|
  {
    if payloads == [] then (if failure.Some? then Err(Stream(failure.value)) else Err(EndedEarly))
    else
      match payloads[0]
      case Done => Conclude(s, requested)
      case Malformed => Err(MalformedEvent)
      case Chunk(e) =>
        var next := Step(s, e);
        if next.Err? then Err(next.error) else Assemble(next.value, payloads[1..], failure, requested)
  }

  function Decoded(events: seq<string>, decode: string -> Payload): seq<Payload> {
    seq(|events|, i requires 0 <= i < |events| => decode(events[i]))
  }

  /** The source's loop over the generator's events, which collects the pieces of text and joins
      them at the end. */
  method ParseChatStream(raw: string, decode: string -> Payload, requested: string)
    returns (r: Result<Answer, ChatError>)
    ensures var stream := Events(Pieces(Unified(raw)), []);
      r == Assemble(START, Decoded(stream.events, decode), stream.failure, requested)
  {
    var stream := SseEvents(raw);
    var textParts: seq<string>, reasoningParts: seq<string>, facts := [], [], START.facts;
    ghost var payloads := Decoded(stream.events, decode);
    for i := 0 to |stream.events|
      invariant Assemble(START, payloads, stream.failure, requested)
             == Assemble(State(Concat(textParts), Concat(reasoningParts), facts), payloads[i..], stream.failure, requested)
    {
      var payload := decode(stream.events[i]);
      assert payloads[i..][0] == payload && payloads[i..][1..] == payloads[i + 1..];
      match payload {
        case Done => return Conclude(State(Concat(textParts), Concat(reasoningParts), facts), requested);
        case Malformed => return Err(MalformedEvent);
        case Chunk(e) =>
          var next := AddFacts(facts, e);
          if next.Err? {
            return Err(next.error);
          }
          facts := next.value;
          textParts := Appended(textParts, Content(e));
          reasoningParts := Appended(reasoningParts, Reasoning(e));
      }
    }
    return if stream.failure.Some? then Err(Stream(stream.failure.value)) else Err(EndedEarly);
  }

  // ------------------------------------------------------------------ fragmentation does not matter

  /** Two optional pieces of text in one. */
  function Glued(a: Option<string>, b: Option<string>): Option<string> {
    if a.None? then b else if b.None? then a else Some(a.value + b.value)
  }

  ghost predicate SameTools(xs: seq<ToolDelta>, ys: seq<ToolDelta>) {
    forall tools :: AddTools(tools, xs) == AddTools(tools, ys)
  }

  /** e cut in two: its text, its reasoning and its tool deltas divided anywhere, the finish reason
      and the usage in the second part, the model in the first and perhaps repeated. */
  ghost predicate Cut(e: Event, first: Event, second: Event) {
    && e.choices.One? && first.choices.One? && second.choices.One?
    && e.choices.delta.content == Glued(first.choices.delta.content, second.choices.delta.content)
    && e.choices.delta.reasoning == Glued(first.choices.delta.reasoning, second.choices.delta.reasoning)
    && SameTools(e.choices.delta.tools, first.choices.delta.tools + second.choices.delta.tools)
    && first.choices.finish == None && second.choices.finish == e.choices.finish
    && first.usage == NoUsage && second.usage == e.usage
    && first.model == e.model && (second.model == None || second.model == e.model)
  }

  lemma {:induction false} AddToolsConcat(tools: map<nat, Part>, xs: seq<ToolDelta>, ys: seq<ToolDelta>)
    ensures AddTools(tools, xs + ys) ==
      var added := AddTools(tools, xs); if added.Err? then added else AddTools(added.value, ys)
    decreases |xs|
  {
    if xs == [] {
      assert xs + ys == ys;
    } else {
      assert (xs + ys)[1..] == xs[1..] + ys;
      var added := AddTool(tools, xs[0]);
      if added.Ok? { AddToolsConcat(added.value, xs[1..], ys); }
    }
  }

  lemma GluedExtends(text: string, a: Option<string>, b: Option<string>)
    ensures Extended(Extended(text, a), b) == Extended(text, Glued(a, b))
  {
  }

  lemma CutFacts(f: Facts, e: Event, first: Event, second: Event)
    requires Cut(e, first, second)
    ensures AddFacts(f, e) ==
      if AddFacts(f, first).Err? then AddFacts(f, first) else AddFacts(AddFacts(f, first).value, second)
  {
    var d, d1, d2 := e.choices.delta, first.choices.delta, second.choices.delta;
    AddToolsConcat(f.tools, d1.tools, d2.tools);
    assert AddTools(f.tools, d.tools) == AddTools(f.tools, d1.tools + d2.tools);
  }

  lemma CutSteps(s: State, e: Event, first: Event, second: Event)
    requires Cut(e, first, second)
    ensures Step(s, e) == if Step(s, first).Err? then Step(s, first) else Step(Step(s, first).value, second)
  {
    CutFacts(s.facts, e, first, second);
    GluedExtends(s.text, Content(first), Content(second));
    GluedExtends(s.reasoning, Reasoning(first), Reasoning(second));
  }

  /** Where the deltas are cut into events does not change the assembled answer, or the error, in
      any stream. */
  lemma {:induction false} CuttingUnseen(s: State, before: seq<Payload>, e: Event, first: Event, second: Event, after: seq<Payload>,
                        failure: Option<StreamError>, requested: string)
    requires Cut(e, first, second)
    ensures Assemble(s, before + [Chunk(e)] + after, failure, requested)
         == Assemble(s, before + [Chunk(first), Chunk(second)] + after, failure, requested)
    decreases |before|
  {
    var whole, cut := before + [Chunk(e)] + after, before + [Chunk(first), Chunk(second)] + after;
    if before == [] {
      CutSteps(s, e, first, second);
      assert whole[1..] == after && cut[1..] == [Chunk(second)] + after && cut[1..][1..] == after;
    } else {
      assert whole[1..] == before[1..] + [Chunk(e)] + after;
      assert cut[1..] == before[1..] + [Chunk(first), Chunk(second)] + after;
      if before[0].Chunk? {
        var next := Step(s, before[0].event);
        if next.Ok? { CuttingUnseen(next.value, before[1..], e, first, second, after, failure, requested); }
      }
    }
  }

  /** One tool delta cut in two: same call, name and arguments divided anywhere. */
  predicate CutTool(d: ToolDelta, first: ToolDelta, second: ToolDelta) {
    && first.index == second.index == d.index
    && first.id == d.id && (second.id == None || second.id == d.id)
    && first.kind == d.kind && (second.kind == None || second.kind == d.kind)
    && d.name == Glued(first.name, second.name)
    && d.arguments == Glued(first.arguments, second.arguments)
  }

  lemma CutToolSame(tools: map<nat, Part>, d: ToolDelta, first: ToolDelta, second: ToolDelta)
    requires CutTool(d, first, second)
    ensures AddTools(tools, [d]) == AddTools(tools, [first, second])
  {
    var part := PartAt(tools, d.index);
    assert [first, second][1..] == [second];
    assert [d][1..] == [] && [second][1..] == [];
    var one := AddTool(tools, first);
    if one.Ok? {
      assert one.value[d.index := PartAt(one.value, d.index)] == one.value;
      assert Extended(Extended(part.name, first.name), second.name) == Extended(part.name, d.name);
      assert Extended(Extended(part.arguments, first.arguments), second.arguments) == Extended(part.arguments, d.arguments);
      var two := AddTool(one.value, second);
      assert two.Ok? && two.value == AddTool(tools, d).value;
    }
  }

  /** Cutting any one tool delta of a list is such a division of the list. */
  lemma ToolCutIsSame(before: seq<ToolDelta>, d: ToolDelta, first: ToolDelta, second: ToolDelta, after: seq<ToolDelta>)
    requires CutTool(d, first, second)
    ensures SameTools(before + [d] + after, (before + [first]) + ([second] + after))
  {
    forall tools
      ensures AddTools(tools, before + [d] + after) == AddTools(tools, (before + [first]) + ([second] + after))
    {
      assert before + [d] + after == before + ([d] + after);
      assert (before + [first]) + ([second] + after) == before + ([first, second] + after);
      AddToolsConcat(tools, before, [d] + after);
      AddToolsConcat(tools, before, [first, second] + after);
      var so := AddTools(tools, before);
      if so.Ok? {
        CutToolSame(so.value, d, first, second);
        AddToolsConcat(so.value, [d], after);
        AddToolsConcat(so.value, [first, second], after);
      }
    }
  }

  // ------------------------------------------------------------------ what an answer consists of

  /** The events before the end marker. */
  function Delivered(payloads: seq<Payload>): seq<Event>
    decreases |payloads|
  {
    if payloads == [] || !payloads[0].Chunk? then [] else [payloads[0].event] + Delivered(payloads[1..])
  }

  /** One part of each event, all of them in order. */
  function Collected(events: seq<Event>, part: Event -> Option<string>): string
    decreases |events|
  {
    if events == [] then "" else Extended("", part(events[0])) + Collected(events[1..], part)
  }

  lemma ExtendedThen(text: string, more: Option<string>, rest: string)
    ensures Extended(text, more) + rest == text + (Extended("", more) + rest)
  {
  }

  /** An answer's text is all the text delivered, in order. */
  lemma {:induction false} AnswerTextIsWhole(s: State, payloads: seq<Payload>, failure: Option<StreamError>, requested: string)
    requires Assemble(s, payloads, failure, requested).Ok?
    ensures Assemble(s, payloads, failure, requested).value.text == s.text + Collected(Delivered(payloads), Content)
    decreases |payloads|
  {
    if payloads[0].Chunk? {
      var e, rest := payloads[0].event, payloads[1..];
      AnswerTextIsWhole(Step(s, e).value, rest, failure, requested);
      ExtendedThen(s.text, Content(e), Collected(Delivered(rest), Content));
    }
  }

  /** And its reasoning is all the reasoning. */
  lemma {:induction false} AnswerReasoningIsWhole(s: State, payloads: seq<Payload>, failure: Option<StreamError>, requested: string)
    requires Assemble(s, payloads, failure, requested).Ok?
    ensures Assemble(s, payloads, failure, requested).value.reasoning == s.reasoning + Collected(Delivered(payloads), Reasoning)
    decreases |payloads|
  {
    if payloads[0].Chunk? {
      var e, rest := payloads[0].event, payloads[1..];
      AnswerReasoningIsWhole(Step(s, e).value, rest, failure, requested);
      ExtendedThen(s.reasoning, Reasoning(e), Collected(Delivered(rest), Reasoning));
    }
  }

  /** Every event behind an answer that names a model names the one requested. */
  lemma {:induction false} AnswerIsFromRequested(s: State, payloads: seq<Payload>, failure: Option<StreamError>, requested: string)
    requires Assemble(s, payloads, failure, requested).Ok?
    ensures s.facts.model == None || s.facts.model == Some(requested)
    ensures forall e | e in Delivered(payloads) :: e.model == None || e.model == Some(requested)
    decreases |payloads|
  {
    if payloads[0].Chunk? {
      var e := payloads[0].event;
      AnswerIsFromRequested(Step(s, e).value, payloads[1..], failure, requested);
    }
  }

  // ------------------------------------------------------------------ whole tool calls

  function ToolsOf(e: Event): seq<ToolDelta> { if e.choices.One? then e.choices.delta.tools else [] }

  /** The tool deltas of all events, in order. */
  function AllTools(events: seq<Event>): seq<ToolDelta>
    decreases |events|
  {
    if events == [] then [] else ToolsOf(events[0]) + AllTools(events[1..])
  }

  function NamePiece(d: ToolDelta): Option<string> { d.name }

  function ArgumentsPiece(d: ToolDelta): Option<string> { d.arguments }

  /** The pieces that the deltas of one call bring, in order. */
  function PiecesOf(ds: seq<ToolDelta>, index: nat, piece: ToolDelta -> Option<string>): string
    decreases |ds|
  {
    if ds == [] then ""
    else (if ds[0].index == index then Extended("", piece(ds[0])) else "") + PiecesOf(ds[1..], index, piece)
  }

  predicate Mentions(ds: seq<ToolDelta>, index: nat) { exists i :: 0 <= i < |ds| && ds[i].index == index }

  predicate GivesId(ds: seq<ToolDelta>, index: nat) { exists i :: 0 <= i < |ds| && ds[i].index == index && ds[i].id.Some? }

  predicate GivesKind(ds: seq<ToolDelta>, index: nat) { exists i :: 0 <= i < |ds| && ds[i].index == index && ds[i].kind.Some? }

  /** No delta of the call names another id or kind than the part. */
  predicate Agrees(part: Part, ds: seq<ToolDelta>, index: nat) {
    forall i | 0 <= i < |ds| && ds[i].index == index ::
      (ds[i].id.Some? ==> part.id == ds[i].id) && (ds[i].kind.Some? ==> part.kind == ds[i].kind)
  }

  /** A call's part is what it was before followed by all its pieces in order, under the one id and kind
      its deltas name. */
  predicate Whole(before: map<nat, Part>, ds: seq<ToolDelta>, after: map<nat, Part>, index: nat) {
    var part, result := PartAt(before, index), PartAt(after, index);
    && result.name == part.name + PiecesOf(ds, index, NamePiece)
    && result.arguments == part.arguments + PiecesOf(ds, index, ArgumentsPiece)
    && (part.id.Some? ==> result.id == part.id) && (part.kind.Some? ==> result.kind == part.kind)
    && Agrees(result, ds, index)
    && (result.id.Some? <==> part.id.Some? || GivesId(ds, index)) && (result.kind.Some? <==> part.kind.Some? || GivesKind(ds, index))
    && (index in after <==> index in before || Mentions(ds, index))
  }

  lemma ExtendedAs(text: string, more: Option<string>)
    ensures Extended(text, more) == text + Extended("", more) && text == text + ""
  {
  }

  lemma OneToolWhole(tools: map<nat, Part>, d: ToolDelta, index: nat)
    requires AddTool(tools, d).Ok?
    ensures Whole(tools, [d], AddTool(tools, d).value, index)
  {
    var part := PartAt(tools, index);
    ExtendedAs(part.name, d.name);
    ExtendedAs(part.arguments, d.arguments);
  }

  lemma Regrouped(a: string, b: string, rest: string)
    ensures (a + b) + rest == a + (b + rest)
  {
  }

  lemma FirstOfConcat(xs: seq<ToolDelta>, ys: seq<ToolDelta>)
    requires xs != []
    ensures (xs + ys)[0] == xs[0] && (xs + ys)[1..] == xs[1..] + ys
  {
  }

  lemma {:induction false} PiecesConcat(xs: seq<ToolDelta>, ys: seq<ToolDelta>, index: nat, piece: ToolDelta -> Option<string>)
    ensures PiecesOf(xs + ys, index, piece) == PiecesOf(xs, index, piece) + PiecesOf(ys, index, piece)
    decreases |xs|
  {
    if xs == [] {
      assert xs + ys == ys;
    } else {
      PiecesConcat(xs[1..], ys, index, piece);
      FirstOfConcat(xs, ys);
      var first := if xs[0].index == index then Extended("", piece(xs[0])) else "";
      Regrouped(first, PiecesOf(xs[1..], index, piece), PiecesOf(ys, index, piece));
    }
  }

  lemma MentionsConcat(xs: seq<ToolDelta>, ys: seq<ToolDelta>, index: nat)
    ensures Mentions(xs + ys, index) <==> Mentions(xs, index) || Mentions(ys, index)
    ensures GivesId(xs + ys, index) <==> GivesId(xs, index) || GivesId(ys, index)
    ensures GivesKind(xs + ys, index) <==> GivesKind(xs, index) || GivesKind(ys, index)
  {
    assert forall i | 0 <= i < |xs| :: (xs + ys)[i] == xs[i];
    assert forall i | 0 <= i < |ys| :: (xs + ys)[|xs| + i] == ys[i];
    if i :| 0 <= i < |xs| && xs[i].index == index { assert (xs + ys)[i].index == index; }
    if i :| 0 <= i < |ys| && ys[i].index == index { assert (xs + ys)[|xs| + i].index == index; }
  }

  lemma WholeThenWhole(a: map<nat, Part>, xs: seq<ToolDelta>, b: map<nat, Part>, ys: seq<ToolDelta>, c: map<nat, Part>, index: nat)
    requires Whole(a, xs, b, index) && Whole(b, ys, c, index)
    ensures Whole(a, xs + ys, c, index)
  {
    PiecesConcat(xs, ys, index, NamePiece);
    PiecesConcat(xs, ys, index, ArgumentsPiece);
    MentionsConcat(xs, ys, index);
    Regrouped(PartAt(a, index).name, PiecesOf(xs, index, NamePiece), PiecesOf(ys, index, NamePiece));
    Regrouped(PartAt(a, index).arguments, PiecesOf(xs, index, ArgumentsPiece), PiecesOf(ys, index, ArgumentsPiece));
  }

  lemma {:induction false} ToolsWhole(tools: map<nat, Part>, ds: seq<ToolDelta>, index: nat)
    requires AddTools(tools, ds).Ok?
    ensures Whole(tools, ds, AddTools(tools, ds).value, index)
    decreases |ds|
  {
    if ds != [] {
      var added := AddTool(tools, ds[0]).value;
      OneToolWhole(tools, ds[0], index);
      ToolsWhole(added, ds[1..], index);
      WholeThenWhole(tools, [ds[0]], added, ds[1..], AddTools(tools, ds).value, index);
      assert [ds[0]] + ds[1..] == ds;
    }
  }

  lemma StepTools(s: State, e: Event, index: nat)
    requires Step(s, e).Ok?
    ensures Whole(s.facts.tools, ToolsOf(e), Step(s, e).value.facts.tools, index)
  {
    ToolsWhole(s.facts.tools, ToolsOf(e), index);
  }

  /** An answer has a tool call exactly for the indices its deltas name; the call's name and arguments
      are all the pieces delivered for its index, in order, under the id and kind they name. */
  lemma {:induction false} AnswerToolsAreWhole(s: State, payloads: seq<Payload>, failure: Option<StreamError>, requested: string, index: nat)
    requires Assemble(s, payloads, failure, requested).Ok?
    ensures Whole(s.facts.tools, AllTools(Delivered(payloads)), Assemble(s, payloads, failure, requested).value.tools, index)
    decreases |payloads|
  {
    if payloads[0].Chunk? {
      var e, rest := payloads[0].event, payloads[1..];
      var next := Step(s, e).value;
      StepTools(s, e, index);
      AnswerToolsAreWhole(next, rest, failure, requested, index);
      WholeThenWhole(s.facts.tools, ToolsOf(e), next.facts.tools, AllTools(Delivered(rest)),
        Assemble(s, payloads, failure, requested).value.tools, index);
    }
  }

  // ------------------------------------------------------------------ which streams are answered, and why others are not

  /** A delta that does not contradict what is known of its call. */
  predicate Compatible(part: Part, d: ToolDelta) {
    && (d.id.Some? && part.id.Some? ==> part.id == d.id)
    && (d.kind.Some? && part.kind.Some? ==> part.kind == d.kind)
  }

  /** No two deltas of one call name different ids or different kinds. */
  predicate Consistent(ds: seq<ToolDelta>) {
    forall i, j | 0 <= i < j < |ds| && ds[i].index == ds[j].index ::
      && (ds[i].id.Some? && ds[j].id.Some? ==> ds[i].id == ds[j].id)
      && (ds[i].kind.Some? && ds[j].kind.Some? ==> ds[i].kind == ds[j].kind)
  }

  predicate AllCompatible(tools: map<nat, Part>, ds: seq<ToolDelta>) {
    forall i | 0 <= i < |ds| :: Compatible(PartAt(tools, ds[i].index), ds[i])
  }

  lemma CompatibleNext(tools: map<nat, Part>, ds: seq<ToolDelta>)
    requires ds != [] && AddTool(tools, ds[0]).Ok?
    ensures AllCompatible(tools, ds) && Consistent(ds) <==> AllCompatible(AddTool(tools, ds[0]).value, ds[1..]) && Consistent(ds[1..])
  {
    var rest, after := ds[1..], AddTool(tools, ds[0]).value;
    assert forall i | 0 <= i < |rest| :: rest[i] == ds[i + 1];
    assert forall i | 0 < i < |ds| :: ds[i] == rest[i - 1];
    forall i | 0 <= i < |rest|
      ensures Compatible(PartAt(after, rest[i].index), rest[i]) <==>
        && Compatible(PartAt(tools, rest[i].index), rest[i])
        && (rest[i].index == ds[0].index ==>
              && (ds[0].id.Some? && rest[i].id.Some? ==> ds[0].id == rest[i].id)
              && (ds[0].kind.Some? && rest[i].kind.Some? ==> ds[0].kind == rest[i].kind))
    {
    }
  }

  lemma {:induction false} AddToolsIff(tools: map<nat, Part>, ds: seq<ToolDelta>)
    ensures AddTools(tools, ds).Ok? <==> AllCompatible(tools, ds) && Consistent(ds)
    decreases |ds|
  {
    if ds != [] {
      assert AddTool(tools, ds[0]).Ok? <==> Compatible(PartAt(tools, ds[0].index), ds[0]);
      if AddTool(tools, ds[0]).Ok? {
        CompatibleNext(tools, ds);
        AddToolsIff(AddTool(tools, ds[0]).value, ds[1..]);
      }
    }
  }

  /** Why one event is refused when so much is known, the first objection counting. */
  lemma RefusedFor(f: Facts, e: Event)
    ensures var r, noChoice := AddFacts(f, e), e.choices.Absent? && e.usage.NoUsage?;
      var named := e.model == None || (e.model != Some("") && (f.model == None || f.model == e.model));
      var tools := if e.choices.One? then AddTools(f.tools, e.choices.delta.tools) else Ok(f.tools);
      var whole := named && !noChoice && !e.choices.Several? && tools.Ok? && !(e.choices.One? && e.choices.finish == Some(""));
      && (r == Err(InvalidModel) <==> e.model == Some(""))
      && (r == Err(ModelChanged) <==> e.model.Some? && e.model != Some("") && f.model.Some? && f.model != e.model)
      && (named && noChoice ==> r == Err(NeitherChoicesNorUsage))
      && (named && e.choices.Several? ==> r == Err(SeveralChoices))
      && (named && tools.Err? ==> r == Err(tools.error))
      && (named && tools.Ok? && e.choices.One? && e.choices.finish == Some("") ==> r == Err(InvalidFinish))
      && (whole && e.usage.BadUsage? ==> r == Err(InvalidUsage))
      && (r.Ok? <==> whole && !e.usage.BadUsage?)
      && (r.Ok? ==> r.value == Facts(
            tools.value,
            if e.model.Some? then e.model else f.model,
            if e.choices.One? && e.choices.finish.Some? then e.choices.finish else f.finish,
            if e.usage.Tokens? then Some((e.usage.tokensIn, e.usage.tokensOut)) else f.usage))
  {
    if e.choices.One? { ToolErrorKind(f.tools, e.choices.delta.tools); }
  }

  lemma {:induction false} ToolErrorKind(tools: map<nat, Part>, ds: seq<ToolDelta>)
    ensures AddTools(tools, ds).Err? ==> AddTools(tools, ds).error == ToolIdChanged || AddTools(tools, ds).error == ToolKindChanged
    decreases |ds|
  {
    if ds != [] && AddTool(tools, ds[0]).Ok? { ToolErrorKind(AddTool(tools, ds[0]).value, ds[1..]); }
  }

  /** What the events add up to, or the first refusal. */
  function Run(f: Facts, es: seq<Event>): Result<Facts, ChatError>
    decreases |es|
  {
    if es == [] then Ok(f)
    else
      var next := AddFacts(f, es[0]);
      if next.Err? then next else Run(next.value, es[1..])
  }

  lemma {:induction false} DeliveredAre(payloads: seq<Payload>)
    ensures |Delivered(payloads)| <= |payloads|
    ensures forall i | 0 <= i < |Delivered(payloads)| :: payloads[i] == Chunk(Delivered(payloads)[i])
    ensures |Delivered(payloads)| < |payloads| ==> !payloads[|Delivered(payloads)|].Chunk?
    decreases |payloads|
  {
    if payloads != [] && payloads[0].Chunk? { DeliveredAre(payloads[1..]); }
  }

  /** A stream is refused at its first refused event; otherwise at a malformed one or at its end, unless it is marked
      as done. */
  lemma {:induction false} AssembleEnds(s: State, payloads: seq<Payload>, failure: Option<StreamError>, requested: string)
    ensures var r, run, n := Assemble(s, payloads, failure, requested), Run(s.facts, Delivered(payloads)), |Delivered(payloads)|;
      && n <= |payloads|
      && (run.Err? ==> r == Err(run.error))
      && (run.Ok? && n == |payloads| ==> r == Err(if failure.Some? then Stream(failure.value) else EndedEarly))
      && (run.Ok? && n < |payloads| && payloads[n] == Malformed ==> r == Err(MalformedEvent))
      && (run.Ok? && n < |payloads| && payloads[n] == Done ==>
            && (r == Err(NoFinalUsage) <==> run.value.usage == None)
            && (r == Err(NoFinishReason) <==> run.value.usage.Some? && run.value.finish == None)
            && (r == Err(NoModelIdentity) <==> run.value.usage.Some? && run.value.finish.Some? && run.value.model == None)
            && (r == Err(WrongModel) <==>
                  run.value.usage.Some? && run.value.finish.Some? && run.value.model.Some? && run.value.model != Some(requested))
            && (r.Ok? <==> run.value.usage.Some? && run.value.finish.Some? && run.value.model == Some(requested))
            && (r.Ok? ==> Some(r.value.usage) == run.value.usage && Some(r.value.finish) == run.value.finish))
    decreases |payloads|
  {
    DeliveredAre(payloads);
    if payloads != [] && payloads[0].Chunk? {
      var next := Step(s, payloads[0].event);
      if next.Ok? { AssembleEnds(next.value, payloads[1..], failure, requested); }
    }
  }

  /** An event fit for an answer of the requested model. */
  predicate Fit(e: Event, requested: string) {
    && (e.model == None || e.model == Some(requested))
    && !e.choices.Several? && !(e.choices.Absent? && e.usage.NoUsage?)
    && !(e.choices.One? && e.choices.finish == Some("")) && !e.usage.BadUsage?
  }

  predicate HasUsage(e: Event) { e.usage.Tokens? }

  predicate HasFinish(e: Event) { e.choices.One? && e.choices.finish.Some? }

  predicate NoOther(model: Option<string>, requested: string) { model == None || model == Some(requested) }

  lemma StepIff(f: Facts, e: Event, requested: string)
    requires requested != ""
    ensures var r := AddFacts(f, e);
      && (r.Ok? && NoOther(r.value.model, requested) <==>
            Fit(e, requested) && NoOther(f.model, requested) && AddTools(f.tools, ToolsOf(e)).Ok?)
      && (r.Ok? ==> AddTools(f.tools, ToolsOf(e)) == Ok(r.value.tools))
      && (r.Ok? && NoOther(r.value.model, requested) ==> NoOther(f.model, requested))
  {
    RefusedFor(f, e);
  }

  lemma {:induction false} RunIff(f: Facts, es: seq<Event>, requested: string)
    requires requested != ""
    ensures Run(f, es).Ok? && NoOther(Run(f, es).value.model, requested) <==>
      (forall e | e in es :: Fit(e, requested)) && NoOther(f.model, requested) && AddTools(f.tools, AllTools(es)).Ok?
    decreases |es|
  {
    if es != [] {
      var e, rest := es[0], es[1..];
      StepIff(f, e, requested);
      AddToolsConcat(f.tools, ToolsOf(e), AllTools(rest));
      assert es == [e] + rest && e in es;
      if AddFacts(f, e).Ok? { RunIff(AddFacts(f, e).value, rest, requested); }
    }
  }

  lemma {:induction false} RunHas(f: Facts, es: seq<Event>)
    requires Run(f, es).Ok?
    ensures Run(f, es).value.usage.Some? <==> f.usage.Some? || exists e :: e in es && HasUsage(e)
    ensures Run(f, es).value.finish.Some? <==> f.finish.Some? || exists e :: e in es && HasFinish(e)
    ensures Run(f, es).value.model.Some? <==> f.model.Some? || exists e :: e in es && e.model.Some?
    decreases |es|
  {
    if es != [] {
      var next := AddFacts(f, es[0]).value;
      assert es == [es[0]] + es[1..] && es[0] in es;
      RefusedFor(f, es[0]);
      assert next.usage.Some? <==> f.usage.Some? || HasUsage(es[0]);
      assert next.finish.Some? <==> f.finish.Some? || HasFinish(es[0]);
      assert next.model.Some? <==> f.model.Some? || es[0].model.Some?;
      RunHas(next, es[1..]);
    }
  }

  /** A stream is answered exactly when it is marked as done after events of which each is fit for the requested model,
      one names it, one gives a finish reason, one the token counts, and no two tool deltas contradict each other. */
  lemma AnsweredIff(payloads: seq<Payload>, failure: Option<StreamError>, requested: string)
    ensures var es := Delivered(payloads);
      Assemble(START, payloads, failure, requested).Ok? <==>
        && |es| < |payloads| && payloads[|es|] == Done
        && requested != "" && (forall e | e in es :: Fit(e, requested)) && Consistent(AllTools(es))
        && (exists e :: e in es && e.model == Some(requested))
        && (exists e :: e in es && HasFinish(e)) && (exists e :: e in es && HasUsage(e))
  {
    var es := Delivered(payloads);
    AssembleEnds(START, payloads, failure, requested);
    DeliveredAre(payloads);
    AddToolsIff(map[], AllTools(es));
    if requested != "" { RunIff(START.facts, es, requested); } else { NeverNameless(START.facts, es); }
    if Run(START.facts, es).Ok? { RunHas(START.facts, es); }
  }

  lemma {:induction false} NeverNameless(f: Facts, es: seq<Event>)
    requires f.model != Some("")
    ensures Run(f, es).Ok? ==> Run(f, es).value.model != Some("")
    decreases |es|
  {
    if es != [] {
      RefusedFor(f, es[0]);
      if AddFacts(f, es[0]).Ok? { NeverNameless(AddFacts(f, es[0]).value, es[1..]); }
    }
  }

  lemma {:induction false} LastCounts(f: Facts, es: seq<Event>)
    requires Run(f, es).Ok?
    ensures (forall e | e in es :: !HasUsage(e)) ==> Run(f, es).value.usage == f.usage
    ensures forall i | 0 <= i < |es| && HasUsage(es[i]) && (forall j | i < j < |es| :: !HasUsage(es[j])) ::
      Run(f, es).value.usage == Some((es[i].usage.tokensIn, es[i].usage.tokensOut))
    ensures (forall e | e in es :: !HasFinish(e)) ==> Run(f, es).value.finish == f.finish
    ensures forall i | 0 <= i < |es| && HasFinish(es[i]) && (forall j | i < j < |es| :: !HasFinish(es[j])) ::
      Run(f, es).value.finish == es[i].choices.finish
    decreases |es|
  {
    if es != [] {
      assert es == [es[0]] + es[1..] && es[0] in es;
      RefusedFor(f, es[0]);
      LastCounts(AddFacts(f, es[0]).value, es[1..]);
    }
  }

  /** The token counts of an answer, in and out, are those of the last event that gives any, and its finish reason is
      the last one given. */
  lemma AnswerTakesTheLast(payloads: seq<Payload>, failure: Option<StreamError>, requested: string, i: nat, j: nat)
    requires Assemble(START, payloads, failure, requested).Ok?
    requires var es := Delivered(payloads);
      && i < |es| && es[i].usage.Tokens? && (forall k | i < k < |es| :: !es[k].usage.Tokens?)
      && j < |es| && es[j].choices.One? && es[j].choices.finish.Some?
      && (forall k | j < k < |es| :: !(es[k].choices.One? && es[k].choices.finish.Some?))
    ensures var answer, es := Assemble(START, payloads, failure, requested).value, Delivered(payloads);
      && answer.usage == (es[i].usage.tokensIn, es[i].usage.tokensOut)
      && es[j].choices.finish == Some(answer.finish)
  {
    AssembleEnds(START, payloads, failure, requested);
    DeliveredAre(payloads);
    AnsweredIff(payloads, failure, requested);
    LastCounts(START.facts, Delivered(payloads));
  }

  lemma {:induction false} CollectedSame(es: seq<Event>, p: Event -> Option<string>, q: Event -> Option<string>)
    requires forall e :: p(e) == q(e)
    ensures Collected(es, p) == Collected(es, q)
    decreases |es|
  {
    if es != [] { CollectedSame(es[1..], p, q); }
  }

  lemma {:induction false} PiecesSame(ds: seq<ToolDelta>, index: nat, p: ToolDelta -> Option<string>, q: ToolDelta -> Option<string>)
    requires forall d :: p(d) == q(d)
    ensures PiecesOf(ds, index, p) == PiecesOf(ds, index, q)
    decreases |ds|
  {
    if ds != [] { PiecesSame(ds[1..], index, p, q); }
  }

  /** What an answer says: all the content and all the reasoning of the events before the end marker, and a tool call for
      each index a delta names, with all its pieces of name and arguments, each in order, and the id and the kind its
      deltas give, if any. */
  lemma AnswerSays(payloads: seq<Payload>, failure: Option<StreamError>, requested: string, index: nat)
    requires Assemble(START, payloads, failure, requested).Ok?
    ensures var answer, es := Assemble(START, payloads, failure, requested).value, Delivered(payloads);
      var ds := AllTools(es);
      && answer.text == Collected(es, (e: Event) => if e.choices.One? then e.choices.delta.content else None)
      && answer.reasoning == Collected(es, (e: Event) => if e.choices.One? then e.choices.delta.reasoning else None)
      && (index in answer.tools <==> exists i :: 0 <= i < |ds| && ds[i].index == index)
      && (index in answer.tools ==>
            var part := answer.tools[index];
            && part.name == PiecesOf(ds, index, (d: ToolDelta) => d.name)
            && part.arguments == PiecesOf(ds, index, (d: ToolDelta) => d.arguments)
            && (part.id.Some? <==> exists i :: 0 <= i < |ds| && ds[i].index == index && ds[i].id.Some?)
            && (part.kind.Some? <==> exists i :: 0 <= i < |ds| && ds[i].index == index && ds[i].kind.Some?)
            && (forall i | 0 <= i < |ds| && ds[i].index == index && ds[i].id.Some? :: part.id == ds[i].id)
            && (forall i | 0 <= i < |ds| && ds[i].index == index && ds[i].kind.Some? :: part.kind == ds[i].kind))
  {
    var es := Delivered(payloads);
    AnswerTextIsWhole(START, payloads, failure, requested);
    AnswerReasoningIsWhole(START, payloads, failure, requested);
    AnswerToolsAreWhole(START, payloads, failure, requested, index);
    CollectedSame(es, Content, (e: Event) => if e.choices.One? then e.choices.delta.content else None);
    CollectedSame(es, Reasoning, (e: Event) => if e.choices.One? then e.choices.delta.reasoning else None);
    PiecesSame(AllTools(es), index, NamePiece, (d: ToolDelta) => d.name);
    PiecesSame(AllTools(es), index, ArgumentsPiece, (d: ToolDelta) => d.arguments);
    NothingBefore(Collected(es, Content), Collected(es, Reasoning));
    NothingBefore(PiecesOf(AllTools(es), index, NamePiece), PiecesOf(AllTools(es), index, ArgumentsPiece));
  }

  lemma NothingBefore(s: string, t: string)
    ensures "" + s == s && "" + t == t
  {
  }
}
