/** Compiling extracted claims into a specification: one node per key, a requirement for every
    emitted reference, and an account of every claim. */
module SpecCompiler {
  import opened Outcomes
  import opened Merge

  datatype Kind = Requirement | Uncompiled | Protocol | Transport | Type | Message | Field

  /** What the compiler reads off a normalised value: its id, for a message whether it still has
      nested fields, for a field the message it names and its own name, and whether the keys the
      output needs are there. */
  datatype Shape = Shape(id: Option<string>, nested: bool, parent: Option<string>, name: Option<string>, complete: bool)

  /** A claim. `wording` identifies its requirement by level, text and section; `digest` is the
      requirement id it would get; a value that cannot be normalised is None. */
  datatype Claim = Claim(
    id: string,
    kind: Kind,
    wording: string,
    digest: string,
    value: Option<Json>,
    shape: Shape,
    confidence: real)

  datatype Key = Key(kind: Kind, name: Option<string>, parent: Option<string>)

  function KindName(kind: Kind): string {
    match kind
    case Requirement => "requirement"
    case Uncompiled => "constraint"
    case Protocol => "protocol"
    case Transport => "transport"
    case Type => "type"
    case Message => "message"
    case Field => "field"
  }

  /** Fields by message and name, everything else by kind and id. */
  function KeyOf(c: Claim): Key {
    if c.kind == Field then Key(Field, c.shape.name, c.shape.parent)
    else Key(c.kind, if c.shape.id.Some? then c.shape.id else Some(KindName(c.kind)), None)
  }

  /** Two claims are for the same node exactly when both are fields of the same name in the same message, or of one
      other kind with the same id, a missing one counting as the kind's name. */
  lemma SameNodeIff(c: Claim, d: Claim)
    ensures KeyOf(c) == KeyOf(d) <==>
      && c.kind == d.kind
      && if c.kind == Field then c.shape.parent == d.shape.parent && c.shape.name == d.shape.name
         else || c.shape.id == d.shape.id
              || (c.shape.id.None? && d.shape.id == Some(KindName(c.kind)))
              || (d.shape.id.None? && c.shape.id == Some(KindName(c.kind)))
    ensures KindName(Protocol) == "protocol" && KindName(Transport) == "transport"
    ensures KindName(Type) == "type" && KindName(Message) == "message" && KindName(Field) == "field"
  {
  }

  datatype Entry = Entry(id: Option<string>, cites: string, fields: seq<string>)

  /** The emitted specification; each entry cites one requirement, each field of a message too. */
  datatype Spec = Spec(transport: Option<Entry>, types: seq<Entry>, messages: seq<Entry>)

  predicate IsNode(c: Claim) { c.kind != Requirement && c.kind != Uncompiled && c.value.Some? }

  predicate Known(e: Entry, requirements: map<string, string>) {
    e.cites in requirements && forall i | 0 <= i < |e.fields| :: e.fields[i] in requirements
  }

  predicate AllKnown(es: seq<Entry>, requirements: map<string, string>) {
    forall i | 0 <= i < |es| :: Known(es[i], requirements)
  }

  /** The linter's reference check: every citation names an emitted requirement. */
  predicate ReferencesKnown(spec: Spec, requirements: map<string, string>) {
    && AllKnown(spec.types, requirements)
    && AllKnown(spec.messages, requirements)
    && (spec.transport.Some? ==> Known(spec.transport.value, requirements))
  }

  /** No two entries have the same id. */
  predicate DistinctIds(es: seq<Entry>) {
    forall i, j | 0 <= i < j < |es| :: es[i].id.Some? ==> es[i].id != es[j].id
  }

  /** Every entry with an id comes from one of the given keys. */
  predicate IdsFrom(es: seq<Entry>, kind: Kind, keys: seq<Key>) {
    forall i | 0 <= i < |es| :: es[i].id.Some? ==> Key(kind, es[i].id, None) in keys
  }

  /** What emission keeps: citations known, ids distinct and from the keys done so far. */
  predicate SpecSound(spec: Spec, requirements: map<string, string>, keys: seq<Key>) {
    && ReferencesKnown(spec, requirements)
    && DistinctIds(spec.types) && IdsFrom(spec.types, Type, keys)
    && DistinctIds(spec.messages) && IdsFrom(spec.messages, Message, keys)
  }

  lemma SoundGrows(spec: Spec, requirements: map<string, string>, keys: seq<Key>, more: map<string, string>, key: Key)
    requires SpecSound(spec, requirements, keys) && requirements.Keys <= more.Keys
    ensures SpecSound(spec, more, keys) && SpecSound(spec, more, keys + [key])
  {
  }

  /** A node's entry goes to the collection of its kind. */
  function WithEntry(spec: Spec, kind: Kind, entry: Entry): Spec {
    match kind
    case Type => spec.(types := spec.types + [entry])
    case Message => spec.(messages := spec.messages + [entry])
    case _ => spec.(transport := Some(entry))
  }

  /** The claims that become entries of their own. */
  predicate IsEntry(c: Claim) { c.kind == Type || c.kind == Transport || (c.kind == Message && !c.shape.nested) }

  lemma EntryAdded(spec: Spec, requirements: map<string, string>, keys: seq<Key>, kind: Kind, entry: Entry, key: Key)
    requires SpecSound(spec, requirements, keys) && Known(entry, requirements) && key !in keys
    requires (kind == Type || kind == Message) && entry.id.Some? ==> key == Key(kind, entry.id, None)
    ensures SpecSound(WithEntry(spec, kind, entry), requirements, keys + [key])
  {
  }

  function WithField(spec: Spec, i: nat, rid: string): Spec
    requires i < |spec.messages|
  {
    var message := spec.messages[i];
    spec.(messages := spec.messages[i := message.(fields := message.fields + [rid])])
  }

  lemma FieldAdded(spec: Spec, requirements: map<string, string>, keys: seq<Key>, i: nat, rid: string)
    requires SpecSound(spec, requirements, keys) && i < |spec.messages| && rid in requirements
    ensures SpecSound(WithField(spec, i, rid), requirements, keys)
  {
    var messages, more := spec.messages, WithField(spec, i, rid).messages;
    assert Known(messages[i], requirements);
    forall j | 0 <= j < |more| ensures Known(more[j], requirements) && more[j].id == messages[j].id {
      if j != i { assert Known(messages[j], requirements); }
    }
  }

  // ------------------------------------------------------------------ the account of claims

  predicate DisplacedBy(c: Claim, d: Claim) {
    IsNode(c) && IsNode(d) && KeyOf(c) == KeyOf(d) && Contains(d.value.value, c.value.value)
  }

  predicate Accounted(c: Claim, mapped: seq<string>, gaps: seq<string>) { c.id in mapped || c.id in gaps }

  /** A mapped claim with the same key, whose value contains this one's, took its place. */
  predicate Displaced(c: Claim, seen: seq<Claim>, mapped: seq<string>) {
    exists d :: d in seen && DisplacedBy(c, d) && d.id in mapped
  }

  predicate Held(c: Claim, nodes: map<Key, Claim>) { IsNode(c) && KeyOf(c) in nodes && nodes[KeyOf(c)] == c }

  predicate Placed(c: Claim, seen: seq<Claim>, nodes: map<Key, Claim>, mapped: seq<string>, gaps: seq<string>) {
    Accounted(c, mapped, gaps) || Held(c, nodes) || Displaced(c, seen, mapped)
  }

  ghost predicate AllPlaced(seen: seq<Claim>, nodes: map<Key, Claim>, mapped: seq<string>, gaps: seq<string>) {
    forall c | c in seen :: Placed(c, seen, nodes, mapped, gaps)
  }

  /** The nodes held, in order of first appearance, each under its own key. */
  predicate Filed(order: seq<Key>, nodes: map<Key, Claim>, seen: seq<Claim>) {
    && (forall i | 0 <= i < |order| :: order[i] in nodes)
    && (forall k | k in nodes :: k in order && nodes[k] in seen && IsNode(nodes[k]) && KeyOf(nodes[k]) == k)
    && (forall i, j | 0 <= i < j < |order| :: order[i] != order[j])
  }

  /** One claim's effect: longer accounts, itself in them or held, and the node of its key perhaps
      now c, the claim held there before being accounted for or displaced. */
  predicate Moves(c: Claim, nodes: map<Key, Claim>, mapped: seq<string>, gaps: seq<string>,
                  nodes': map<Key, Claim>, mapped': seq<string>, gaps': seq<string>) {
    && mapped <= mapped' && gaps <= gaps' && (Accounted(c, mapped', gaps') || Held(c, nodes'))
    && (nodes' == nodes || (IsNode(c) && nodes' == nodes[KeyOf(c) := c]))
    && (nodes' != nodes && KeyOf(c) in nodes ==>
      var p := nodes[KeyOf(c)]; Accounted(p, mapped', gaps') || (DisplacedBy(p, c) && c.id in mapped'))
  }

  lemma Advanced(c: Claim, seen: seq<Claim>, nodes: map<Key, Claim>, mapped: seq<string>, gaps: seq<string>,
                 nodes': map<Key, Claim>, mapped': seq<string>, gaps': seq<string>)
    requires Moves(c, nodes, mapped, gaps, nodes', mapped', gaps')
    requires AllPlaced(seen, nodes, mapped, gaps)
    ensures AllPlaced(seen + [c], nodes', mapped', gaps')
  {
  }

  lemma FiledStill(order: seq<Key>, nodes: map<Key, Claim>, seen: seq<Claim>, c: Claim)
    requires Filed(order, nodes, seen)
    ensures Filed(order, nodes, seen + [c])
  {
  }

  // ------------------------------------------------------------------ nodes are folds

  function CandidateOf(c: Claim): Candidate
    requires IsNode(c)
  {
    Candidate(c.value.value, c.confidence)
  }

  /** The candidates seen for one key, in order. */
  function CandidatesFor(seen: seq<Claim>, key: Key): seq<Candidate> {
    if |seen| == 0 then []
    else
      var c := seen[|seen| - 1];
      CandidatesFor(seen[..|seen| - 1], key) + if IsNode(c) && KeyOf(c) == key then [CandidateOf(c)] else []
  }

  /** Two claims for the key that cannot be merged are both recorded as gaps. */
  ghost predicate ConflictRecorded(seen: seq<Claim>, gaps: seq<string>, key: Key) {
    exists a, b :: a in seen && b in seen && Clash(a, b, key) && a.id in gaps && b.id in gaps
  }

  predicate Clash(a: Claim, b: Claim, key: Key) {
    IsNode(a) && IsNode(b) && KeyOf(a) == key == KeyOf(b) && !Comparable(a.value.value, b.value.value)
  }

  /** The node of a key is what folding its candidates gives, and a conflict among them is on record. */
  ghost predicate FoldedAt(nodes: map<Key, Claim>, seen: seq<Claim>, gaps: seq<string>, specificity: Json -> nat, key: Key) {
    var cs := CandidatesFor(seen, key);
    if key in nodes then
      && IsNode(nodes[key]) && cs != [] && Fold(cs, specificity).held == CandidateOf(nodes[key])
      && (Fold(cs, specificity).conflict ==> ConflictRecorded(seen, gaps, key))
    else cs == []
  }

  ghost predicate AllFolded(nodes: map<Key, Claim>, seen: seq<Claim>, gaps: seq<string>, specificity: Json -> nat) {
    forall key {:trigger FoldedAt(nodes, seen, gaps, specificity, key)} :: FoldedAt(nodes, seen, gaps, specificity, key)
  }

  function VerdictOn(previous: Claim, c: Claim, specificity: Json -> nat): Verdict
    requires IsNode(previous) && IsNode(c)
  {
    Judge(CandidateOf(previous), CandidateOf(c), specificity)
  }

  /** A claim that is no candidate for a key leaves the key's fold alone. */
  lemma FoldedStill(nodes: map<Key, Claim>, seen: seq<Claim>, gaps: seq<string>, specificity: Json -> nat, key: Key,
                    c: Claim, nodes': map<Key, Claim>, gaps': seq<string>)
    requires FoldedAt(nodes, seen, gaps, specificity, key) && gaps <= gaps' && !(IsNode(c) && KeyOf(c) == key)
    requires (key in nodes <==> key in nodes') && (key in nodes ==> nodes'[key] == nodes[key])
    ensures FoldedAt(nodes', seen + [c], gaps', specificity, key)
  {
    assert (seen + [c])[..|seen|] == seen;
    assert CandidatesFor(seen + [c], key) == CandidatesFor(seen, key);
  }

  /** A claim that meets the node of its key. */
  lemma FoldedNext(nodes: map<Key, Claim>, seen: seq<Claim>, gaps: seq<string>, specificity: Json -> nat,
                   c: Claim, nodes': map<Key, Claim>, gaps': seq<string>)
    requires IsNode(c) && KeyOf(c) in nodes && FoldedAt(nodes, seen, gaps, specificity, KeyOf(c)) && gaps <= gaps'
    requires nodes[KeyOf(c)] in seen && KeyOf(nodes[KeyOf(c)]) == KeyOf(c)
    requires var verdict := VerdictOn(nodes[KeyOf(c)], c, specificity);
      && KeyOf(c) in nodes'
      && nodes'[KeyOf(c)] == (if verdict == Richer || verdict == Conflict(true) then c else nodes[KeyOf(c)])
      && (verdict.Conflict? ==> nodes[KeyOf(c)].id in gaps' && c.id in gaps')
    ensures FoldedAt(nodes', seen + [c], gaps', specificity, KeyOf(c))
  {
    var key, previous := KeyOf(c), nodes[KeyOf(c)];
    var before := CandidatesFor(seen, key);
    var cs := CandidatesFor(seen + [c], key);
    assert (seen + [c])[..|seen|] == seen;
    assert cs == before + [CandidateOf(c)] && cs[..|cs| - 1] == before;
    if VerdictOn(previous, c, specificity).Conflict? {
      assert Clash(previous, c, key) && previous in seen + [c] && c in seen + [c];
    }
  }

  lemma OthersStill(nodes: map<Key, Claim>, seen: seq<Claim>, gaps: seq<string>, specificity: Json -> nat,
                    c: Claim, nodes': map<Key, Claim>, gaps': seq<string>)
    requires AllFolded(nodes, seen, gaps, specificity) && gaps <= gaps'
    requires nodes' == nodes || (IsNode(c) && nodes' == nodes[KeyOf(c) := c])
    requires IsNode(c) ==> FoldedAt(nodes', seen + [c], gaps', specificity, KeyOf(c))
    ensures AllFolded(nodes', seen + [c], gaps', specificity)
  {
    forall key ensures FoldedAt(nodes', seen + [c], gaps', specificity, key) {
      if !(IsNode(c) && KeyOf(c) == key) {
        assert FoldedAt(nodes, seen, gaps, specificity, key);
        FoldedStill(nodes, seen, gaps, specificity, key, c, nodes', gaps');
      }
    }
  }

  lemma NewFolded(nodes: map<Key, Claim>, seen: seq<Claim>, gaps: seq<string>, specificity: Json -> nat, c: Claim)
    requires AllFolded(nodes, seen, gaps, specificity) && IsNode(c) && KeyOf(c) !in nodes
    ensures AllFolded(nodes[KeyOf(c) := c], seen + [c], gaps, specificity)
  {
    assert FoldedAt(nodes, seen, gaps, specificity, KeyOf(c));
    OthersStill(nodes, seen, gaps, specificity, c, nodes[KeyOf(c) := c], gaps);
  }

  lemma MetFolded(nodes: map<Key, Claim>, seen: seq<Claim>, gaps: seq<string>, specificity: Json -> nat,
                  c: Claim, nodes': map<Key, Claim>, gaps': seq<string>)
    requires AllFolded(nodes, seen, gaps, specificity) && IsNode(c) && KeyOf(c) in nodes && gaps <= gaps'
    requires IsNode(nodes[KeyOf(c)]) && nodes[KeyOf(c)] in seen && KeyOf(nodes[KeyOf(c)]) == KeyOf(c)
    requires var verdict := VerdictOn(nodes[KeyOf(c)], c, specificity);
      && nodes' == (if verdict == Richer || verdict == Conflict(true) then nodes[KeyOf(c) := c] else nodes)
      && (verdict.Conflict? ==> nodes[KeyOf(c)].id in gaps' && c.id in gaps')
    ensures AllFolded(nodes', seen + [c], gaps', specificity)
  {
    assert FoldedAt(nodes, seen, gaps, specificity, KeyOf(c));
    FoldedNext(nodes, seen, gaps, specificity, c, nodes', gaps');
    OthersStill(nodes, seen, gaps, specificity, c, nodes', gaps');
  }

  /** A key's node covers every claim seen for the key, unless a conflict among them is on record. */
  lemma NodeCovers(nodes: map<Key, Claim>, seen: seq<Claim>, gaps: seq<string>, specificity: Json -> nat, c: Claim)
    requires FoldedAt(nodes, seen, gaps, specificity, KeyOf(c)) && c in seen && IsNode(c)
    ensures KeyOf(c) in nodes && IsNode(nodes[KeyOf(c)])
    ensures Covers(nodes[KeyOf(c)].value.value, c.value.value) || ConflictRecorded(seen, gaps, KeyOf(c))
  {
    var cs := CandidatesFor(seen, KeyOf(c));
    var i := CandidateAt(seen, c);
    if !Fold(cs, specificity).conflict { SurvivorCovers(cs, specificity, i); }
  }

  lemma {:induction false} CandidateAt(seen: seq<Claim>, c: Claim) returns (i: nat)
    requires c in seen && IsNode(c)
    ensures i < |CandidatesFor(seen, KeyOf(c))| && CandidatesFor(seen, KeyOf(c))[i] == CandidateOf(c)
    decreases |seen|
  {
    var n := |seen| - 1;
    if seen[n] == c {
      i := |CandidatesFor(seen[..n], KeyOf(c))|;
    } else {
      i := CandidateAt(seen[..n], c);
    }
  }

  /** The first message with the id a field names. */
  predicate IsParent(messages: seq<Entry>, c: Claim, i: nat)
    requires i < |messages|
  {
    messages[i].id == c.shape.parent && forall j | 0 <= j < i :: messages[j].id != c.shape.parent
  }

  /** A message after a field's claim: only a complete field's parent gains a citation. */
  function Joined(messages: seq<Entry>, c: Claim, i: nat, wordings: map<string, string>): Entry
    requires i < |messages|
  {
    if c.shape.complete && IsParent(messages, c, i) && c.wording in wordings then
      messages[i].(fields := messages[i].fields + [wordings[c.wording]])
    else messages[i]
  }

  // ------------------------------------------------------------------ what the nodes make

  /** Wordings known before keep their requirements. */
  predicate Extends(before: map<string, string>, after: map<string, string>) {
    forall w | w in before :: w in after && after[w] == before[w]
  }

  /** The requirement of a claim's wording. */
  function Cited(c: Claim, wordings: map<string, string>): string {
    if c.wording in wordings then wordings[c.wording] else ""
  }

  function EntryOf(c: Claim, wordings: map<string, string>): Entry { Entry(c.shape.id, Cited(c, wordings), []) }

  /** The output the nodes make before their fields join: an entry for each that has one, in order. */
  function Built(ns: seq<Claim>, wordings: map<string, string>): Spec {
    if |ns| == 0 then Spec(None, [], [])
    else
      var before, c := Built(ns[..|ns| - 1], wordings), ns[|ns| - 1];
      if IsEntry(c) then WithEntry(before, c.kind, EntryOf(c, wordings)) else before
  }

  function JoinedAll(messages: seq<Entry>, c: Claim, wordings: map<string, string>): seq<Entry> {
    seq(|messages|, i requires 0 <= i < |messages| => Joined(messages, c, i, wordings))
  }

  /** The messages once the fields among the nodes have joined them, in order. */
  function Fielded(messages: seq<Entry>, ns: seq<Claim>, wordings: map<string, string>): (r: seq<Entry>)
    ensures |r| == |messages| && forall i | 0 <= i < |r| :: r[i].id == messages[i].id
  {
    if |ns| == 0 then messages
    else
      var before, c := Fielded(messages, ns[..|ns| - 1], wordings), ns[|ns| - 1];
      if c.kind == Field then JoinedAll(before, c, wordings) else before
  }

  /** The whole output of the nodes. */
  function Emitted(ns: seq<Claim>, wordings: map<string, string>): Spec {
    var spec := Built(ns, wordings);
    spec.(messages := Fielded(spec.messages, ns, wordings))
  }

  /** A field with its own keys, whose message exists. */
  predicate Joins(messages: seq<Entry>, c: Claim) {
    c.kind == Field && c.shape.complete && exists i :: 0 <= i < |messages| && messages[i].id == c.shape.parent
  }

  predicate EntriesKnown(ns: seq<Claim>, wordings: map<string, string>) {
    forall i | 0 <= i < |ns| :: IsEntry(ns[i]) ==> ns[i].wording in wordings
  }

  predicate FieldsKnown(messages: seq<Entry>, ns: seq<Claim>, wordings: map<string, string>) {
    forall i | 0 <= i < |ns| :: Joins(messages, ns[i]) ==> ns[i].wording in wordings
  }

  lemma {:induction false} BuiltStill(ns: seq<Claim>, before: map<string, string>, after: map<string, string>)
    requires EntriesKnown(ns, before) && Extends(before, after)
    ensures Built(ns, after) == Built(ns, before) && EntriesKnown(ns, after)
  {
    if |ns| > 0 { BuiltStill(ns[..|ns| - 1], before, after); }
  }

  lemma JoinedStill(messages: seq<Entry>, c: Claim, before: map<string, string>, after: map<string, string>)
    requires c.kind == Field && Extends(before, after) && (Joins(messages, c) ==> c.wording in before)
    ensures JoinedAll(messages, c, after) == JoinedAll(messages, c, before)
  {
  }

  lemma {:induction false} FieldedStill(messages: seq<Entry>, ns: seq<Claim>, before: map<string, string>, after: map<string, string>)
    requires FieldsKnown(messages, ns, before) && Extends(before, after)
    ensures Fielded(messages, ns, after) == Fielded(messages, ns, before) && FieldsKnown(messages, ns, after)
  {
    if |ns| > 0 {
      var rest, c := ns[..|ns| - 1], ns[|ns| - 1];
      FieldedStill(messages, rest, before, after);
      if c.kind == Field {
        assert Joins(Fielded(messages, rest, before), c) ==> Joins(messages, c);
        JoinedStill(Fielded(messages, rest, before), c, before, after);
      }
    }
  }

  function Collected(spec: Spec, kind: Kind): seq<Entry> {
    if kind == Type then spec.types else if kind == Message then spec.messages else []
  }

  /** The claims that pass a test, in their order. */
  function Only(cs: seq<Claim>, p: Claim -> bool): seq<Claim> {
    if |cs| == 0 then [] else Only(cs[..|cs| - 1], p) + if p(cs[|cs| - 1]) then [cs[|cs| - 1]] else []
  }

  lemma {:induction false} OnlyThose(cs: seq<Claim>, p: Claim -> bool, c: Claim)
    ensures c in Only(cs, p) <==> c in cs && p(c)
  {
    if |cs| > 0 {
      OnlyThose(cs[..|cs| - 1], p, c);
      assert cs == cs[..|cs| - 1] + [cs[|cs| - 1]];
    }
  }

  lemma OnlyNext(cs: seq<Claim>, n: nat, p: Claim -> bool)
    requires n < |cs|
    ensures Only(cs[..n + 1], p) == Only(cs[..n], p) + if p(cs[n]) then [cs[n]] else []
  {
    assert cs[..n + 1][..n] == cs[..n];
  }

  /** The types are those of the type nodes and the messages those of the message nodes without nested fields, in
      the order of the nodes, each under its node's id and citing the requirement of its node's wording. */
  lemma {:induction false} BuiltExactly(ns: seq<Claim>, wordings: map<string, string>, kind: Kind)
    requires (kind == Type || kind == Message) && EntriesKnown(ns, wordings)
    ensures var es := Collected(Built(ns, wordings), kind);
      var made := Only(ns, (c: Claim) => c.kind == kind && (c.kind == Message ==> !c.shape.nested));
      |es| == |made| && forall i | 0 <= i < |made| ::
        made[i].wording in wordings && es[i] == Entry(made[i].shape.id, wordings[made[i].wording], [])
  {
    if |ns| > 0 {
      var before, c := Built(ns[..|ns| - 1], wordings), ns[|ns| - 1];
      BuiltExactly(ns[..|ns| - 1], wordings, kind);
      assert Collected(Built(ns, wordings), kind) ==
        if IsEntry(c) && c.kind == kind then Collected(before, kind) + [EntryOf(c, wordings)] else Collected(before, kind);
    }
  }

  /** The transport is the last transport node's, if there is one. */
  lemma {:induction false} TransportIsLast(ns: seq<Claim>, wordings: map<string, string>) returns (i: nat)
    requires EntriesKnown(ns, wordings)
    ensures Built(ns, wordings).transport.None? ==> forall j | 0 <= j < |ns| :: ns[j].kind != Transport
    ensures Built(ns, wordings).transport.Some? ==>
      && i < |ns| && ns[i].kind == Transport && (forall j | i < j < |ns| :: ns[j].kind != Transport)
      && Built(ns, wordings).transport.value == Entry(ns[i].shape.id, wordings[ns[i].wording], [])
  {
    i := 0;
    if |ns| > 0 {
      i := |ns| - 1;
      if ns[i].kind != Transport { i := TransportIsLast(ns[..|ns| - 1], wordings); }
    }
  }

  /** The citations a message gains: those of the complete fields that name it first, in order. */
  function Gained(messages: seq<Entry>, ns: seq<Claim>, i: nat, wordings: map<string, string>): seq<string>
    requires i < |messages|
  {
    if |ns| == 0 then []
    else
      var c := ns[|ns| - 1];
      Gained(messages, ns[..|ns| - 1], i, wordings) +
      if c.kind == Field && c.shape.complete && c.wording in wordings && IsParent(messages, c, i) then [wordings[c.wording]] else []
  }

  lemma {:induction false} FieldedExactly(messages: seq<Entry>, ns: seq<Claim>, i: nat, wordings: map<string, string>)
    requires i < |messages|
    ensures Fielded(messages, ns, wordings)[i] == messages[i].(fields := messages[i].fields + Gained(messages, ns, i, wordings))
  {
    if |ns| > 0 {
      FieldedExactly(messages, ns[..|ns| - 1], i, wordings);
      var before := Fielded(messages, ns[..|ns| - 1], wordings);
      assert IsParent(before, ns[|ns| - 1], i) <==> IsParent(messages, ns[|ns| - 1], i);
    }
  }

  // ------------------------------------------------------------------ the requirements

  /** The requirement of each wording after claims were cited in this order: a wording keeps its first. */
  function WordingsOf(cited: seq<Claim>): map<string, string> {
    if |cited| == 0 then map[]
    else
      var before, c := WordingsOf(cited[..|cited| - 1]), cited[|cited| - 1];
      if c.wording in before then before else before[c.wording := c.digest]
  }

  function RequirementsOf(cited: seq<Claim>): map<string, string> {
    if |cited| == 0 then map[]
    else
      var before, c := RequirementsOf(cited[..|cited| - 1]), cited[|cited| - 1];
      if c.wording in WordingsOf(cited[..|cited| - 1]) then before else before[c.digest := c.wording]
  }

  /** The i-th citation is the first of its wording. */
  predicate FirstCited(cited: seq<Claim>, i: nat) {
    i < |cited| && forall j | 0 <= j < i :: cited[j].wording != cited[i].wording
  }

  /** Every claim cited has its wording on record, under the digest of the first claim so worded; the digests of these
      first claims, and no others, are requirements, and each carries the wording of such a claim. */
  ghost predicate Evidenced(cited: seq<Claim>, wordings: map<string, string>, requirements: map<string, string>) {
    && (forall c | c in cited :: c.wording in wordings)
    && (forall w | w in wordings :: exists i: nat :: FirstCited(cited, i) && cited[i].wording == w)
    && (forall i: nat | FirstCited(cited, i) :: cited[i].digest in requirements && wordings[cited[i].wording] == cited[i].digest)
    && (forall rid | rid in requirements ::
          exists i: nat :: FirstCited(cited, i) && cited[i].digest == rid && cited[i].wording == requirements[rid])
  }

  lemma {:induction false} WordingKnown(cited: seq<Claim>, i: nat)
    requires i < |cited|
    ensures cited[i].wording in WordingsOf(cited)
    decreases |cited|
  {
    if i < |cited| - 1 { WordingKnown(cited[..|cited| - 1], i); }
  }

  lemma {:induction false} WordingFirst(cited: seq<Claim>, w: string) returns (i: nat)
    requires w in WordingsOf(cited)
    ensures FirstCited(cited, i) && cited[i].wording == w && WordingsOf(cited)[w] == cited[i].digest
  {
    var n := |cited| - 1;
    if w in WordingsOf(cited[..n]) {
      i := WordingFirst(cited[..n], w);
    } else {
      i := n;
      forall j | 0 <= j < n ensures cited[j].wording != w { WordingKnown(cited[..n], j); }
    }
  }

  lemma {:induction false} RequirementKnown(cited: seq<Claim>, i: nat)
    requires FirstCited(cited, i)
    ensures cited[i].digest in RequirementsOf(cited)
    decreases |cited|
  {
    var n := |cited| - 1;
    if i < n {
      assert FirstCited(cited[..n], i);
      RequirementKnown(cited[..n], i);
    } else if cited[n].wording in WordingsOf(cited[..n]) {
      var j := WordingFirst(cited[..n], cited[n].wording);
    }
  }

  lemma {:induction false} RequirementFirst(cited: seq<Claim>, rid: string) returns (i: nat)
    requires rid in RequirementsOf(cited)
    ensures FirstCited(cited, i) && cited[i].digest == rid && cited[i].wording == RequirementsOf(cited)[rid]
  {
    var n := |cited| - 1;
    if cited[n].wording !in WordingsOf(cited[..n]) && cited[n].digest == rid {
      i := n;
      forall j | 0 <= j < n ensures cited[j].wording != cited[n].wording { WordingKnown(cited[..n], j); }
    } else {
      i := RequirementFirst(cited[..n], rid);
    }
  }

  lemma CitationsEvidenced(cited: seq<Claim>)
    ensures Evidenced(cited, WordingsOf(cited), RequirementsOf(cited))
  {
    forall c | c in cited ensures c.wording in WordingsOf(cited) {
      var i :| 0 <= i < |cited| && cited[i] == c;
      WordingKnown(cited, i);
    }
    forall w | w in WordingsOf(cited) ensures exists i: nat :: FirstCited(cited, i) && cited[i].wording == w {
      var i := WordingFirst(cited, w);
    }
    forall i: nat | FirstCited(cited, i)
      ensures cited[i].digest in RequirementsOf(cited)
      ensures cited[i].wording in WordingsOf(cited) && WordingsOf(cited)[cited[i].wording] == cited[i].digest
    {
      WordingKnown(cited, i);
      RequirementKnown(cited, i);
      var j := WordingFirst(cited, cited[i].wording);
      assert i == j;
    }
    forall rid | rid in RequirementsOf(cited)
      ensures exists i: nat :: FirstCited(cited, i) && cited[i].digest == rid && cited[i].wording == RequirementsOf(cited)[rid]
    {
      var i := RequirementFirst(cited, rid);
    }
  }

  predicate IsRequirement(c: Claim) { c.kind == Requirement }

  predicate IsStructural(c: Claim) { c.kind == Type || c.kind == Message || c.kind == Transport }

  // ------------------------------------------------------------------ why a claim is mapped, why it is a gap

  /** A claim the output has no place for, or whose value cannot be normalised. */
  predicate Uncompilable(c: Claim) { c.kind == Uncompiled || (c.kind != Requirement && c.value.None?) }

  /** A message with nested fields, or a protocol under another id. */
  predicate LeftOut(c: Claim) { (c.kind == Message && c.shape.nested) || (c.kind == Protocol && !IsProtocol(c)) }

  predicate IsProtocol(c: Claim) { KeyOf(c) == Key(Protocol, Some("protocol"), None) }

  /** Two claims for one node of which one contains the other. */
  predicate Meets(c: Claim, d: Claim) {
    IsNode(c) && IsNode(d) && KeyOf(c) == KeyOf(d) && Comparable(c.value.value, d.value.value)
  }

  /** The j-th claim is a requirement, or repeats or merges with an earlier one. */
  ghost predicate MappedEarly(seen: seq<Claim>, j: nat) {
    j < |seen| && (seen[j].kind == Requirement || exists i :: 0 <= i < j && Meets(seen[i], seen[j]))
  }

  /** The j-th claim has no place in the output, or contradicts another. */
  ghost predicate GapEarly(seen: seq<Claim>, j: nat) {
    j < |seen| && (Uncompilable(seen[j]) || exists i :: 0 <= i < |seen| && Clash(seen[i], seen[j], KeyOf(seen[j])))
  }

  /** The account after the claims were filed and before anything is emitted. */
  ghost predicate TakenAccount(seen: seq<Claim>, mapped: seq<string>, gaps: seq<string>) {
    && (forall id | id in mapped :: exists j: nat :: MappedEarly(seen, j) && seen[j].id == id)
    && (forall id | id in gaps :: exists j: nat :: GapEarly(seen, j) && seen[j].id == id)
    && (forall c | c in seen :: (c.kind == Requirement ==> c.id in mapped) && (Uncompilable(c) ==> c.id in gaps))
  }

  /** What a claim does to the account when it is filed. */
  predicate Files(c: Claim, nodes: map<Key, Claim>, mapped: seq<string>, gaps: seq<string>, mapped': seq<string>, gaps': seq<string>) {
    if c.kind == Requirement then mapped' == mapped + [c.id] && gaps' == gaps
    else if Uncompilable(c) then mapped' == mapped && gaps' == gaps + [c.id]
    else if KeyOf(c) !in nodes then mapped' == mapped && gaps' == gaps
    else if Meets(nodes[KeyOf(c)], c) then mapped' == mapped + [c.id] && gaps' == gaps
    else mapped' == mapped && gaps' == gaps + [nodes[KeyOf(c)].id] + [c.id]
  }

  lemma EarlyStill(seen: seq<Claim>, c: Claim, j: nat)
    ensures MappedEarly(seen, j) ==> MappedEarly(seen + [c], j)
    ensures GapEarly(seen, j) ==> GapEarly(seen + [c], j)
  {
    if GapEarly(seen, j) && !Uncompilable(seen[j]) {
      var i :| 0 <= i < |seen| && Clash(seen[i], seen[j], KeyOf(seen[j]));
      assert Clash((seen + [c])[i], (seen + [c])[j], KeyOf(seen[j]));
    }
    if MappedEarly(seen, j) && seen[j].kind != Requirement {
      var i :| 0 <= i < j && Meets(seen[i], seen[j]);
      assert Meets((seen + [c])[i], (seen + [c])[j]);
    }
  }

  lemma FilesBoth(seen: seq<Claim>, c: Claim, i: nat)
    requires i < |seen| && IsNode(c) && IsNode(seen[i]) && KeyOf(seen[i]) == KeyOf(c)
    ensures Meets(seen[i], c) ==> MappedEarly(seen + [c], |seen|)
    ensures !Meets(seen[i], c) ==> GapEarly(seen + [c], i) && GapEarly(seen + [c], |seen|)
  {
    var all := seen + [c];
    assert all[i] == seen[i] && all[|seen|] == c;
    if !Meets(seen[i], c) {
      ComparableEither(c.value.value, seen[i].value.value);
      assert Clash(all[i], all[|seen|], KeyOf(c)) && Clash(all[|seen|], all[i], KeyOf(c));
    }
  }

  lemma ComparableEither(a: Json, b: Json)
    ensures Comparable(a, b) == Comparable(b, a)
  {
  }

  lemma TakenNext(seen: seq<Claim>, c: Claim, nodes: map<Key, Claim>, mapped: seq<string>, gaps: seq<string>,
                  mapped': seq<string>, gaps': seq<string>)
    requires TakenAccount(seen, mapped, gaps) && Files(c, nodes, mapped, gaps, mapped', gaps')
    requires KeyOf(c) in nodes ==> var p := nodes[KeyOf(c)]; p in seen && IsNode(p) && KeyOf(p) == KeyOf(c)
    ensures TakenAccount(seen + [c], mapped', gaps')
  {
    var all, n := seen + [c], |seen|;
    assert all[n] == c;
    if IsNode(c) && KeyOf(c) in nodes {
      var i :| 0 <= i < |seen| && seen[i] == nodes[KeyOf(c)];
      FilesBoth(seen, c, i);
      assert all[i] == seen[i];
    }
    forall id | id in mapped' ensures exists j: nat :: MappedEarly(all, j) && all[j].id == id {
      if id in mapped {
        var j: nat :| MappedEarly(seen, j) && seen[j].id == id;
        EarlyStill(seen, c, j);
      } else {
        assert MappedEarly(all, n);
      }
    }
    forall id | id in gaps' ensures exists j: nat :: GapEarly(all, j) && all[j].id == id {
      if id in gaps {
        var j: nat :| GapEarly(seen, j) && seen[j].id == id;
        EarlyStill(seen, c, j);
      } else if id == c.id {
        assert GapEarly(all, n);
      }
    }
  }

  /** How often a node is entered as mapped when it is emitted: for its evidence and for its entry. */
  function OnceOrTwice(c: Claim): seq<string> {
    if IsEntry(c) then [c.id] + [c.id] else if c.kind == Message || IsProtocol(c) then [c.id] else []
  }

  class Compiler {
    const specificity: Json -> nat
    var requirements: map<string, string>
    var wordings: map<string, string>
    var order: seq<Key>
    var nodes: map<Key, Claim>
    var mapped: seq<string>
    var gaps: seq<string>
    var spec: Spec
    ghost var seen: seq<Claim>
    ghost var cited: seq<Claim>

    /** The requirements are those of the claims cited so far. */
    ghost predicate Sourced()
      reads this
    {
      wordings == WordingsOf(cited) && requirements == RequirementsOf(cited)
    }

    ghost predicate Valid()
      reads this
    {
      && Sourced()
      && (forall w | w in wordings :: wordings[w] in requirements)
      && Filed(order, nodes, seen)
    }

    /** Every key's node is the fold of the claims seen for it. */
    ghost predicate Merged()
      reads this
    {
      AllFolded(nodes, seen, gaps, specificity)
    }

    constructor (specificity: Json -> nat)
      ensures Valid() && Merged() && seen == [] && mapped == [] && gaps == []
      ensures spec == Spec(None, [], []) && this.specificity == specificity && cited == []
    {
      this.specificity := specificity;
      requirements, wordings, order, nodes := map[], map[], [], map[];
      mapped, gaps, spec, seen, cited := [], [], Spec(None, [], []), [], [];
    }

    method Gap(c: Claim)
      modifies this`gaps
      ensures gaps == old(gaps) + [c.id]
    {
      gaps := gaps + [c.id];
    }

    method Map(c: Claim)
      modifies this`mapped
      ensures mapped == old(mapped) + [c.id]
    {
      mapped := mapped + [c.id];
    }

    /** The requirement a claim is evidence for; a wording met before keeps its first one. */
    method Cite(c: Claim) returns (rid: string)
      requires Sourced() && forall w | w in wordings :: wordings[w] in requirements
      modifies this`requirements, this`wordings, this`mapped, this`cited
      ensures Sourced() && (forall w | w in wordings :: wordings[w] in requirements) && cited == old(cited) + [c]
      ensures wordings == if c.wording in old(wordings) then old(wordings) else old(wordings)[c.wording := c.digest]
      ensures requirements == if c.wording in old(wordings) then old(requirements) else old(requirements)[c.digest := c.wording]
      ensures rid in requirements && c.wording in wordings && wordings[c.wording] == rid
      ensures rid == if c.wording in old(wordings) then old(wordings)[c.wording] else c.digest
      ensures old(requirements).Keys <= requirements.Keys <= old(requirements).Keys + {c.digest}
      ensures Extends(old(wordings), wordings)
      ensures mapped == old(mapped) + [c.id]
    {
      if c.wording in wordings {
        rid := wordings[c.wording];
      } else {
        rid := c.digest;
        wordings := wordings[c.wording := rid];
        requirements := requirements[rid := c.wording];
      }
      assert (cited + [c])[..|cited|] == cited;
      cited := cited + [c];
      Map(c);
    }

    /** A claim whose key has a node already: a repetition, a merge, or a conflict. */
    method Meet(c: Claim)
      requires IsNode(c) && KeyOf(c) in nodes && IsNode(nodes[KeyOf(c)]) && KeyOf(nodes[KeyOf(c)]) == KeyOf(c)
      modifies this`nodes, this`mapped, this`gaps
      ensures old(mapped) <= mapped && old(gaps) <= gaps && Accounted(c, mapped, gaps)
      ensures var previous := old(nodes)[KeyOf(c)];
        var verdict := VerdictOn(previous, c, specificity);
        && nodes == (if verdict == Richer || verdict == Conflict(true) then old(nodes)[KeyOf(c) := c] else old(nodes))
        && (verdict.Conflict? ==> gaps == old(gaps) + [previous.id] + [c.id] && mapped == old(mapped))
        && (!verdict.Conflict? ==> gaps == old(gaps) && mapped == old(mapped) + [c.id])
        && (verdict == Richer ==> DisplacedBy(previous, c))
    {
      var previous := nodes[KeyOf(c)];
      var verdict := VerdictOn(previous, c, specificity);
      if verdict.Conflict? {
        Gap(previous);
        Gap(c);
      } else {
        Map(c);
      }
      if verdict == Richer || verdict == Conflict(true) {
        nodes := nodes[KeyOf(c) := c];
      }
    }

    /** A claim that makes a node, or meets the one held for its key. */
    method FileNode(c: Claim)
      requires IsNode(c) && Valid() && Merged()
      modifies this`nodes, this`order, this`mapped, this`gaps
      ensures Filed(order, nodes, seen + [c]) && AllFolded(nodes, seen + [c], gaps, specificity)
      ensures Moves(c, old(nodes), old(mapped), old(gaps), nodes, mapped, gaps)
      ensures Files(c, old(nodes), old(mapped), old(gaps), mapped, gaps)
    {
      FiledStill(order, nodes, seen, c);
      ghost var before, known := nodes, gaps;
      if KeyOf(c) in nodes {
        Meet(c);
        MetFolded(before, seen, known, specificity, c, nodes, gaps);
      } else {
        nodes := nodes[KeyOf(c) := c];
        order := order + [KeyOf(c)];
        NewFolded(before, seen, known, specificity, c);
      }
    }

    /** Files one claim: as a requirement, a gap, or a node. */
    method Take(c: Claim)
      requires Valid() && Merged() && AllPlaced(seen, nodes, mapped, gaps)
      modifies this
      ensures Valid() && Merged() && AllPlaced(seen, nodes, mapped, gaps)
      ensures seen == old(seen) + [c] && spec == old(spec)
      ensures cited == old(cited) + if c.kind == Requirement then [c] else []
      ensures Files(c, old(nodes), old(mapped), old(gaps), mapped, gaps)
    {
      ghost var nodes0, mapped0, gaps0 := nodes, mapped, gaps;
      if c.kind == Requirement {
        var _ := Cite(c);
        FiledStill(order, nodes, seen, c);
        OthersStill(nodes0, seen, gaps0, specificity, c, nodes, gaps);
      } else if c.kind == Uncompiled || c.value.None? {
        Gap(c);
        FiledStill(order, nodes, seen, c);
        OthersStill(nodes0, seen, gaps0, specificity, c, nodes, gaps);
      } else {
        FileNode(c);
      }
      Advanced(c, seen, nodes0, mapped0, gaps0, nodes, mapped, gaps);
      seen := seen + [c];
    }

    // ---------------------------------------------------------------- emission

    ghost predicate Emitting(n: nat)
      reads this
    {
      Valid() && n <= |order| && SpecSound(spec, requirements, order[..n])
    }

    /** A structural claim cites its evidence; a message with nested fields is then a gap, any other
        an entry. */
    method EmitEntry(c: Claim, ghost keys: seq<Key>)
      requires Valid() && SpecSound(spec, requirements, keys) && KeyOf(c) !in keys
      requires c.kind == Type || c.kind == Message || c.kind == Transport
      modifies this`spec, this`requirements, this`wordings, this`mapped, this`gaps, this`cited
      ensures Valid() && SpecSound(spec, requirements, keys + [KeyOf(c)])
      ensures old(mapped) <= mapped && old(gaps) <= gaps && Accounted(c, mapped, gaps)
      ensures c.wording in wordings && c.id in mapped && Extends(old(wordings), wordings)
      ensures spec == if IsEntry(c) then WithEntry(old(spec), c.kind, EntryOf(c, wordings)) else old(spec)
      ensures cited == old(cited) + [c]
      ensures mapped == old(mapped) + OnceOrTwice(c) && gaps == old(gaps) + if IsEntry(c) then [] else [c.id]
    {
      ghost var before := requirements;
      var rid := Cite(c);
      SoundGrows(spec, before, keys, requirements, KeyOf(c));
      if c.kind == Message && c.shape.nested {
        Gap(c);
        return;
      }
      var entry := Entry(c.shape.id, rid, []);
      EntryAdded(spec, requirements, keys, c.kind, entry, KeyOf(c));
      spec := WithEntry(spec, c.kind, entry);
      Map(c);
    }

    /** The n-th node: an entry of the output, a gap, or a field that waits for its message. */
    method EmitNode(n: nat)
      requires n < |order| && Emitting(n)
      modifies this`spec, this`requirements, this`wordings, this`mapped, this`gaps, this`cited
      ensures Emitting(n + 1) && old(mapped) <= mapped && old(gaps) <= gaps
      ensures nodes[order[n]].kind == Field || Accounted(nodes[order[n]], mapped, gaps)
      ensures var c := nodes[order[n]];
        if IsEntry(c) then c.wording in wordings && c.id in mapped && spec == WithEntry(old(spec), c.kind, EntryOf(c, wordings))
        else spec == old(spec)
      ensures Extends(old(wordings), wordings)
      ensures cited == old(cited) + if IsStructural(nodes[order[n]]) then [nodes[order[n]]] else []
      ensures mapped == old(mapped) + OnceOrTwice(nodes[order[n]])
      ensures gaps == old(gaps) + if LeftOut(nodes[order[n]]) then [nodes[order[n]].id] else []
    {
      var c := nodes[order[n]];
      assert order[..n + 1] == order[..n] + [order[n]];
      SoundGrows(spec, requirements, order[..n], requirements, order[n]);
      if c.kind == Type || c.kind == Message || c.kind == Transport {
        EmitEntry(c, order[..n]);
      } else if order[n] == Key(Protocol, Some("protocol"), None) {
        Map(c);
      } else if c.kind != Field {
        Gap(c);
      }
    }

    /** The first message with the id a field names. */
    method Parent(c: Claim) returns (i: nat)
      ensures i <= |spec.messages|
      ensures i < |spec.messages| ==> spec.messages[i].id == c.shape.parent
      ensures forall j | 0 <= j < i :: spec.messages[j].id != c.shape.parent
    {
      i := 0;
      while i < |spec.messages| && spec.messages[i].id != c.shape.parent
        invariant i <= |spec.messages|
        invariant forall j | 0 <= j < i :: spec.messages[j].id != c.shape.parent
      {
        i := i + 1;
      }
    }

    /** A field joins its message, or is a gap when there is none or its own keys are missing. */
    method EmitField(c: Claim)
      requires Emitting(|order|)
      modifies this`spec, this`requirements, this`wordings, this`mapped, this`gaps, this`cited
      ensures Emitting(|order|) && old(mapped) <= mapped && old(gaps) <= gaps
      ensures Accounted(c, mapped, gaps)
      ensures spec.types == old(spec).types && spec.transport == old(spec).transport
      ensures |spec.messages| == |old(spec).messages|
      ensures forall i | 0 <= i < |spec.messages| :: spec.messages[i] == Joined(old(spec).messages, c, i, wordings)
      ensures Extends(old(wordings), wordings) && (Joins(old(spec).messages, c) ==> c.wording in wordings)
      ensures c.kind == Field ==> cited == old(cited) + if Joins(old(spec).messages, c) then [c] else []
      ensures c.kind == Field ==> mapped == old(mapped) + if Joins(old(spec).messages, c) then [c.id] + [c.id] else []
      ensures c.kind == Field ==> gaps == old(gaps) + if Joins(old(spec).messages, c) then [] else [c.id]
    {
      var i := Parent(c);
      if i == |spec.messages| || !c.shape.complete {
        Gap(c);
        return;
      }
      Join(c, i);
    }

    /** A field cites its evidence in its message. */
    method Join(c: Claim, i: nat)
      requires Emitting(|order|) && i < |spec.messages|
      modifies this`spec, this`requirements, this`wordings, this`mapped, this`cited
      ensures Emitting(|order|) && Extends(old(wordings), wordings) && c.wording in wordings
      ensures spec == WithField(old(spec), i, wordings[c.wording])
      ensures cited == old(cited) + [c] && mapped == old(mapped) + ([c.id] + [c.id])
    {
      ghost var before := requirements;
      var rid := Cite(c);
      SoundGrows(spec, before, order[..|order|], requirements, KeyOf(c));
      FieldAdded(spec, requirements, order[..|order|], i, rid);
      spec := WithField(spec, i, rid);
      Map(c);
    }
  }

  predicate Covered(node: Claim, c: Claim) {
    node.value.Some? && c.value.Some? && Covers(node.value.value, c.value.value)
  }

  /** The node of the claim's key covers the claim, unless a conflict for the key is on record. */
  ghost predicate Kept(nodes: map<Key, Claim>, seen: seq<Claim>, gaps: seq<string>, c: Claim) {
    KeyOf(c) in nodes && (Covered(nodes[KeyOf(c)], c) || ConflictRecorded(seen, gaps, KeyOf(c)))
  }

  ghost predicate AllKept(nodes: map<Key, Claim>, seen: seq<Claim>, gaps: seq<string>) {
    forall c | c in seen && IsNode(c) :: Kept(nodes, seen, gaps, c)
  }

  /** What was cited: the requirement claims in the order of the document, then the structural nodes in theirs, then the
      fields that joined a message. */
  ghost predicate CitedInOrder(cited: seq<Claim>, claims: seq<Claim>, ns: seq<Claim>, messages: seq<Entry>) {
    cited == Only(claims, IsRequirement) + Only(ns, IsStructural) + Only(ns, (c: Claim) => Joins(messages, c))
  }

  /** Every claim id on the account is there for a reason, and every claim with one of the reasons but repetition and
      contradiction, which depend on the node met, is on it. */
  ghost predicate AccountExact(claims: seq<Claim>, ns: seq<Claim>, messages: seq<Entry>, mapped: seq<string>, gaps: seq<string>) {
    && (forall id | id in mapped ::
          || (exists j: nat :: MappedEarly(claims, j) && claims[j].id == id)
          || (exists i :: 0 <= i < |ns| && ns[i].id == id && (IsStructural(ns[i]) || IsProtocol(ns[i])))
          || (exists i :: 0 <= i < |ns| && ns[i].id == id && Joins(messages, ns[i])))
    && (forall id | id in gaps ::
          || (exists j: nat :: GapEarly(claims, j) && claims[j].id == id)
          || (exists i :: 0 <= i < |ns| && ns[i].id == id && LeftOut(ns[i]))
          || (exists i :: 0 <= i < |ns| && ns[i].id == id && ns[i].kind == Field && !Joins(messages, ns[i])))
    && (forall c | c in claims :: (c.kind == Requirement ==> c.id in mapped) && (Uncompilable(c) ==> c.id in gaps))
    && (forall i | 0 <= i < |ns| ::
          && (IsStructural(ns[i]) || IsProtocol(ns[i]) || Joins(messages, ns[i]) ==> ns[i].id in mapped)
          && (LeftOut(ns[i]) || (ns[i].kind == Field && !Joins(messages, ns[i])) ==> ns[i].id in gaps))
  }

  /** The account after n nodes were emitted. */
  ghost predicate NodesAccount(ns: seq<Claim>, n: nat, mapped: seq<string>, gaps: seq<string>, mapped': seq<string>, gaps': seq<string>)
    requires n <= |ns|
  {
    && (forall id | id in mapped' ::
          id in mapped || exists i :: 0 <= i < n && ns[i].id == id && (IsStructural(ns[i]) || IsProtocol(ns[i])))
    && (forall id | id in gaps' :: id in gaps || exists i :: 0 <= i < n && ns[i].id == id && LeftOut(ns[i]))
    && (forall i | 0 <= i < n ::
          (IsStructural(ns[i]) || IsProtocol(ns[i]) ==> ns[i].id in mapped') && (LeftOut(ns[i]) ==> ns[i].id in gaps'))
  }

  lemma NodeAccounted(ns: seq<Claim>, n: nat, mapped: seq<string>, gaps: seq<string>, mapped': seq<string>, gaps': seq<string>,
                      mapped'': seq<string>, gaps'': seq<string>)
    requires n < |ns| && NodesAccount(ns, n, mapped, gaps, mapped', gaps')
    requires mapped'' == mapped' + OnceOrTwice(ns[n]) && gaps'' == gaps' + if LeftOut(ns[n]) then [ns[n].id] else []
    ensures NodesAccount(ns, n + 1, mapped, gaps, mapped'', gaps'')
  {
    var c := ns[n];
    assert forall id | id in mapped'' :: id in mapped' || (id == c.id && (IsStructural(c) || IsProtocol(c)));
    assert forall id | id in gaps'' :: id in gaps' || (id == c.id && LeftOut(c));
    assert IsStructural(c) || IsProtocol(c) ==> c.id in mapped'';
  }

  /** The account after the first n nodes' fields were emitted. */
  ghost predicate FieldsAccount(ns: seq<Claim>, messages: seq<Entry>, n: nat, mapped: seq<string>, gaps: seq<string>,
                                mapped': seq<string>, gaps': seq<string>)
    requires n <= |ns|
  {
    && (forall id | id in mapped' :: id in mapped || exists i :: 0 <= i < n && ns[i].id == id && Joins(messages, ns[i]))
    && (forall id | id in gaps' ::
          id in gaps || exists i :: 0 <= i < n && ns[i].id == id && ns[i].kind == Field && !Joins(messages, ns[i]))
    && (forall i | 0 <= i < n && ns[i].kind == Field :: ns[i].id in if Joins(messages, ns[i]) then mapped' else gaps')
  }

  lemma FieldAccounted(ns: seq<Claim>, messages: seq<Entry>, n: nat, mapped: seq<string>, gaps: seq<string>,
                       mapped': seq<string>, gaps': seq<string>, mapped'': seq<string>, gaps'': seq<string>)
    requires n < |ns| && FieldsAccount(ns, messages, n, mapped, gaps, mapped', gaps') && mapped' <= mapped'' && gaps' <= gaps''
    requires mapped'' == mapped' + if Joins(messages, ns[n]) then [ns[n].id] + [ns[n].id] else []
    requires gaps'' == gaps' + if ns[n].kind == Field && !Joins(messages, ns[n]) then [ns[n].id] else []
    ensures FieldsAccount(ns, messages, n + 1, mapped, gaps, mapped'', gaps'')
  {
  }

  lemma AccountedExactly(claims: seq<Claim>, ns: seq<Claim>, messages: seq<Entry>, mapped: seq<string>, gaps: seq<string>,
                         mapped': seq<string>, gaps': seq<string>, mapped'': seq<string>, gaps'': seq<string>)
    requires TakenAccount(claims, mapped, gaps) && mapped <= mapped' <= mapped'' && gaps <= gaps' <= gaps''
    requires NodesAccount(ns, |ns|, mapped, gaps, mapped', gaps') && FieldsAccount(ns, messages, |ns|, mapped', gaps', mapped'', gaps'')
    ensures AccountExact(claims, ns, messages, mapped'', gaps'')
  {
  }

  lemma JoinsSame(messages: seq<Entry>, others: seq<Entry>, c: Claim)
    requires |messages| == |others| && forall i | 0 <= i < |messages| :: messages[i].id == others[i].id
    ensures Joins(messages, c) == Joins(others, c)
  {
    if i :| 0 <= i < |messages| && messages[i].id == c.shape.parent { assert others[i].id == c.shape.parent; }
    if i :| 0 <= i < |others| && others[i].id == c.shape.parent { assert messages[i].id == c.shape.parent; }
  }

  /** The whole compilation. Every citation of the output names an emitted requirement, ids are
      distinct, every claim ends mapped, in a gap, or displaced by a mapped claim for the same node
      whose value contains its own, and a key's node covers every claim for the key unless two of
      them that cannot be merged are both gaps. The output is exactly what the nodes make. */
  method Compile(claims: seq<Claim>, specificity: Json -> nat) returns (compiler: Compiler)
    ensures ReferencesKnown(compiler.spec, compiler.requirements)
    ensures DistinctIds(compiler.spec.types) && DistinctIds(compiler.spec.messages)
    ensures forall c | c in claims :: Accounted(c, compiler.mapped, compiler.gaps) || Displaced(c, claims, compiler.mapped)
    ensures AllKept(compiler.nodes, claims, compiler.gaps) && Faithful(compiler)
    ensures forall c | c in claims && c.kind == Requirement ::
      c.wording in compiler.wordings && compiler.wordings[c.wording] in compiler.requirements
    ensures Evidenced(compiler.cited, compiler.wordings, compiler.requirements)
    ensures var ns := NodesOf(compiler.order, compiler.nodes);
      && CitedInOrder(compiler.cited, claims, ns, compiler.spec.messages)
      && AccountExact(claims, ns, compiler.spec.messages, compiler.mapped, compiler.gaps)
  {
    compiler := new Compiler(specificity);
    for i := 0 to |claims|
      invariant compiler.cited == Only(claims[..i], IsRequirement)
      invariant TakenAccount(compiler.seen, compiler.mapped, compiler.gaps)
      invariant compiler.Valid() && compiler.Merged() && compiler.seen == claims[..i] && compiler.spec == Spec(None, [], [])
      invariant AllPlaced(compiler.seen, compiler.nodes, compiler.mapped, compiler.gaps)
    {
      TakeNext(compiler, claims, i, claims[i]);
    }
    assert claims[..|claims|] == claims;
    Emit(compiler);
    CitationsEvidenced(compiler.cited);
    forall c | c in claims && c.kind == Requirement ensures c in compiler.cited { OnlyThose(claims, IsRequirement, c); }
  }

  method TakeNext(compiler: Compiler, ghost claims: seq<Claim>, i: nat, c: Claim)
    requires i < |claims| && c == claims[i] && compiler.Valid() && compiler.Merged() && compiler.seen == claims[..i]
    requires AllPlaced(compiler.seen, compiler.nodes, compiler.mapped, compiler.gaps)
    requires TakenAccount(compiler.seen, compiler.mapped, compiler.gaps) && compiler.cited == Only(claims[..i], IsRequirement)
    modifies compiler
    ensures compiler.Valid() && compiler.Merged() && compiler.seen == claims[..i + 1] && compiler.spec == old(compiler.spec)
    ensures AllPlaced(compiler.seen, compiler.nodes, compiler.mapped, compiler.gaps)
    ensures TakenAccount(compiler.seen, compiler.mapped, compiler.gaps) && compiler.cited == Only(claims[..i + 1], IsRequirement)
  {
    ghost var nodes, mapped, gaps := compiler.nodes, compiler.mapped, compiler.gaps;
    compiler.Take(c);
    OnlyNext(claims, i, IsRequirement);
    TakenNext(claims[..i], c, nodes, mapped, gaps, compiler.mapped, compiler.gaps);
    assert claims[..i + 1] == claims[..i] + [c];
  }

  /** The nodes in the order of their keys. */
  function NodesOf(order: seq<Key>, nodes: map<Key, Claim>): seq<Claim>
    requires forall i | 0 <= i < |order| :: order[i] in nodes
  {
    seq(|order|, i requires 0 <= i < |order| => nodes[order[i]])
  }

  /** The output is what the nodes make, and every claim with an entry is mapped. */
  ghost predicate Faithful(compiler: Compiler)
    reads compiler
  {
    && compiler.Valid()
    && compiler.spec == Emitted(NodesOf(compiler.order, compiler.nodes), compiler.wordings)
    && EntriesMapped(NodesOf(compiler.order, compiler.nodes), compiler.mapped)
    && EntriesKnown(NodesOf(compiler.order, compiler.nodes), compiler.wordings)
    && FieldsKnown(compiler.spec.messages, NodesOf(compiler.order, compiler.nodes), compiler.wordings)
  }

  predicate EntriesMapped(ns: seq<Claim>, mapped: seq<string>) {
    forall i | 0 <= i < |ns| :: IsEntry(ns[i]) ==> ns[i].id in mapped
  }

  method Emit(compiler: Compiler)
    requires compiler.Valid() && compiler.Merged() && compiler.spec == Spec(None, [], [])
    requires AllPlaced(compiler.seen, compiler.nodes, compiler.mapped, compiler.gaps)
    requires TakenAccount(compiler.seen, compiler.mapped, compiler.gaps) && compiler.cited == Only(compiler.seen, IsRequirement)
    modifies compiler
    ensures compiler.seen == old(compiler.seen) && Faithful(compiler)
    ensures var ns := NodesOf(compiler.order, compiler.nodes);
      && CitedInOrder(compiler.cited, compiler.seen, ns, compiler.spec.messages)
      && AccountExact(compiler.seen, ns, compiler.spec.messages, compiler.mapped, compiler.gaps)
    ensures ReferencesKnown(compiler.spec, compiler.requirements)
    ensures DistinctIds(compiler.spec.types) && DistinctIds(compiler.spec.messages)
    ensures forall c | c in compiler.seen ::
      Accounted(c, compiler.mapped, compiler.gaps) || Displaced(c, compiler.seen, compiler.mapped)
    ensures AllKept(compiler.nodes, compiler.seen, compiler.gaps)
  {
    ghost var mapped, gaps := compiler.mapped, compiler.gaps;
    EmitAll(compiler, compiler.seen);
    PlacedInTheEnd(compiler.order, compiler.nodes, compiler.seen, mapped, gaps, compiler.mapped, compiler.gaps);
    CoveredInTheEnd(compiler.seen, compiler.nodes, gaps, compiler.specificity, compiler.gaps);
  }

  /** Once every node is accounted for, so is every claim. */
  lemma PlacedInTheEnd(order: seq<Key>, nodes: map<Key, Claim>, seen: seq<Claim>, mapped: seq<string>, gaps: seq<string>,
                       mapped': seq<string>, gaps': seq<string>)
    requires Filed(order, nodes, seen) && AllPlaced(seen, nodes, mapped, gaps) && mapped <= mapped' && gaps <= gaps'
    requires var ns := NodesOf(order, nodes); Settled(ns, |ns|, |ns|, mapped', gaps')
    ensures forall c | c in seen :: Accounted(c, mapped', gaps') || Displaced(c, seen, mapped')
  {
    forall c | c in seen ensures Accounted(c, mapped', gaps') || Displaced(c, seen, mapped') {
      if Held(c, nodes) {
        var i :| 0 <= i < |order| && order[i] == KeyOf(c);
        assert NodesOf(order, nodes)[i] == c;
      }
    }
  }

  lemma CoveredInTheEnd(seen: seq<Claim>, nodes: map<Key, Claim>, gaps: seq<string>, specificity: Json -> nat, gaps': seq<string>)
    requires AllFolded(nodes, seen, gaps, specificity) && gaps <= gaps'
    ensures AllKept(nodes, seen, gaps')
  {
    forall c | c in seen && IsNode(c)
      ensures Kept(nodes, seen, gaps', c)
    {
      assert FoldedAt(nodes, seen, gaps, specificity, KeyOf(c));
      NodeCovers(nodes, seen, gaps, specificity, c);
    }
  }

  lemma BuiltNext(ns: seq<Claim>, n: nat, before: map<string, string>, after: map<string, string>)
    requires n < |ns| && EntriesKnown(ns[..n], before) && Extends(before, after)
    requires IsEntry(ns[n]) ==> ns[n].wording in after
    ensures EntriesKnown(ns[..n + 1], after)
    ensures Built(ns[..n + 1], after) ==
      if IsEntry(ns[n]) then WithEntry(Built(ns[..n], before), ns[n].kind, EntryOf(ns[n], after)) else Built(ns[..n], before)
  {
    BuiltStill(ns[..n], before, after);
    assert ns[..n + 1][..n] == ns[..n];
  }

  /** The first n nodes have their entries, and the claims of these are mapped. */
  ghost predicate NodesDone(ns: seq<Claim>, n: nat, spec: Spec, wordings: map<string, string>, mapped: seq<string>) {
    && n <= |ns| && EntriesKnown(ns[..n], wordings) && spec == Built(ns[..n], wordings)
    && EntriesMapped(ns[..n], mapped)
  }

  lemma NodeDone(ns: seq<Claim>, n: nat, spec: Spec, wordings: map<string, string>, mapped: seq<string>,
                 spec': Spec, wordings': map<string, string>, mapped': seq<string>)
    requires NodesDone(ns, n, spec, wordings, mapped) && n < |ns| && Extends(wordings, wordings') && mapped <= mapped'
    requires if IsEntry(ns[n]) then
        ns[n].wording in wordings' && ns[n].id in mapped' && spec' == WithEntry(spec, ns[n].kind, EntryOf(ns[n], wordings'))
      else spec' == spec
    ensures NodesDone(ns, n + 1, spec', wordings', mapped')
  {
    BuiltNext(ns, n, wordings, wordings');
  }

  /** Everything but fields is accounted for, and the first n fields too. */
  ghost predicate Settled(ns: seq<Claim>, nodes: nat, fields: nat, mapped: seq<string>, gaps: seq<string>) {
    forall i | 0 <= i < |ns| :: (if ns[i].kind == Field then i < fields else i < nodes) ==> Accounted(ns[i], mapped, gaps)
  }

  lemma SettledNext(ns: seq<Claim>, nodes: nat, fields: nat, mapped: seq<string>, gaps: seq<string>,
                    nodes': nat, fields': nat, mapped': seq<string>, gaps': seq<string>)
    requires Settled(ns, nodes, fields, mapped, gaps) && mapped <= mapped' && gaps <= gaps'
    requires nodes <= nodes' <= nodes + 1 && fields <= fields' <= fields + 1
    requires nodes < nodes' && nodes < |ns| && ns[nodes].kind != Field ==> Accounted(ns[nodes], mapped', gaps')
    requires fields < fields' && fields < |ns| && ns[fields].kind == Field ==> Accounted(ns[fields], mapped', gaps')
    ensures Settled(ns, nodes', fields', mapped', gaps')
  {
  }

  method EmitNodes(compiler: Compiler)
    requires compiler.Emitting(0) && compiler.spec == Spec(None, [], [])
    modifies compiler`spec, compiler`requirements, compiler`wordings, compiler`mapped, compiler`gaps, compiler`cited
    ensures compiler.Emitting(|compiler.order|)
    ensures old(compiler.mapped) <= compiler.mapped && old(compiler.gaps) <= compiler.gaps
    ensures var ns := NodesOf(compiler.order, compiler.nodes);
      && Settled(ns, |ns|, 0, compiler.mapped, compiler.gaps)
      && NodesDone(ns, |ns|, compiler.spec, compiler.wordings, compiler.mapped)
      && compiler.cited == old(compiler.cited) + Only(ns, IsStructural)
      && NodesAccount(ns, |ns|, old(compiler.mapped), old(compiler.gaps), compiler.mapped, compiler.gaps)
  {
    ghost var ns := NodesOf(compiler.order, compiler.nodes);
    ghost var cited, mapped, gaps := compiler.cited, compiler.mapped, compiler.gaps;
    for n := 0 to |compiler.order|
      invariant compiler.cited == cited + Only(ns[..n], IsStructural)
      invariant NodesAccount(ns, n, mapped, gaps, compiler.mapped, compiler.gaps)
      invariant compiler.Emitting(n)
      invariant old(compiler.mapped) <= compiler.mapped && old(compiler.gaps) <= compiler.gaps
      invariant Settled(ns, n, 0, compiler.mapped, compiler.gaps)
      invariant NodesDone(ns, n, compiler.spec, compiler.wordings, compiler.mapped)
    {
      EmitNextNode(compiler, ns, n, cited, mapped, gaps);
    }
    assert ns[..|ns|] == ns;
  }

  method EmitNextNode(compiler: Compiler, ghost ns: seq<Claim>, n: nat, ghost cited: seq<Claim>,
                      ghost mapped: seq<string>, ghost gaps: seq<string>)
    requires n < |compiler.order| && compiler.Emitting(n) && ns == NodesOf(compiler.order, compiler.nodes)
    requires Settled(ns, n, 0, compiler.mapped, compiler.gaps)
    requires NodesDone(ns, n, compiler.spec, compiler.wordings, compiler.mapped)
    requires compiler.cited == cited + Only(ns[..n], IsStructural)
    requires NodesAccount(ns, n, mapped, gaps, compiler.mapped, compiler.gaps)
    modifies compiler`spec, compiler`requirements, compiler`wordings, compiler`mapped, compiler`gaps, compiler`cited
    ensures compiler.Emitting(n + 1)
    ensures old(compiler.mapped) <= compiler.mapped && old(compiler.gaps) <= compiler.gaps
    ensures Settled(ns, n + 1, 0, compiler.mapped, compiler.gaps)
    ensures NodesDone(ns, n + 1, compiler.spec, compiler.wordings, compiler.mapped)
    ensures compiler.cited == cited + Only(ns[..n + 1], IsStructural)
    ensures NodesAccount(ns, n + 1, mapped, gaps, compiler.mapped, compiler.gaps)
  {
    ghost var known, were := compiler.mapped, compiler.gaps;
    SettleNode(compiler, ns, n);
    NodeAccounted(ns, n, mapped, gaps, known, were, compiler.mapped, compiler.gaps);
    OnlyNext(ns, n, IsStructural);
  }

  method SettleNode(compiler: Compiler, ghost ns: seq<Claim>, n: nat)
    requires n < |compiler.order| && compiler.Emitting(n) && ns == NodesOf(compiler.order, compiler.nodes)
    requires Settled(ns, n, 0, compiler.mapped, compiler.gaps)
    requires NodesDone(ns, n, compiler.spec, compiler.wordings, compiler.mapped)
    modifies compiler`spec, compiler`requirements, compiler`wordings, compiler`mapped, compiler`gaps, compiler`cited
    ensures compiler.Emitting(n + 1)
    ensures Settled(ns, n + 1, 0, compiler.mapped, compiler.gaps)
    ensures NodesDone(ns, n + 1, compiler.spec, compiler.wordings, compiler.mapped)
    ensures compiler.cited == old(compiler.cited) + if IsStructural(ns[n]) then [ns[n]] else []
    ensures compiler.mapped == old(compiler.mapped) + OnceOrTwice(ns[n])
    ensures compiler.gaps == old(compiler.gaps) + if LeftOut(ns[n]) then [ns[n].id] else []
  {
    ghost var spec, wordings, known, were := compiler.spec, compiler.wordings, compiler.mapped, compiler.gaps;
    compiler.EmitNode(n);
    SettledNext(ns, n, 0, known, were, n + 1, 0, compiler.mapped, compiler.gaps);
    NodeDone(ns, n, spec, wordings, known, compiler.spec, compiler.wordings, compiler.mapped);
  }

  lemma FieldedNext(messages: seq<Entry>, ns: seq<Claim>, n: nat, before: map<string, string>, after: map<string, string>)
    requires n < |ns| && FieldsKnown(messages, ns[..n], before) && Extends(before, after)
    requires Joins(messages, ns[n]) ==> ns[n].wording in after
    ensures FieldsKnown(messages, ns[..n + 1], after)
    ensures Fielded(messages, ns[..n + 1], after) ==
      if ns[n].kind == Field then JoinedAll(Fielded(messages, ns[..n], before), ns[n], after) else Fielded(messages, ns[..n], before)
  {
    FieldedStill(messages, ns[..n], before, after);
    assert ns[..n + 1][..n] == ns[..n];
  }

  /** The first n fields have joined their messages. */
  ghost predicate FieldsDone(ns: seq<Claim>, n: nat, built: Spec, spec: Spec, wordings: map<string, string>) {
    && n <= |ns| && FieldsKnown(built.messages, ns[..n], wordings)
    && spec == built.(messages := Fielded(built.messages, ns[..n], wordings))
  }

  lemma FieldDone(ns: seq<Claim>, n: nat, built: Spec, spec: Spec, wordings: map<string, string>,
                  spec': Spec, wordings': map<string, string>)
    requires FieldsDone(ns, n, built, spec, wordings) && n < |ns| && Extends(wordings, wordings')
    requires ns[n].kind == Field && Joins(spec.messages, ns[n]) ==> ns[n].wording in wordings'
    requires spec' == if ns[n].kind == Field then spec.(messages := JoinedAll(spec.messages, ns[n], wordings')) else spec
    ensures FieldsDone(ns, n + 1, built, spec', wordings')
  {
    if Joins(built.messages, ns[n]) {
      var i :| 0 <= i < |built.messages| && built.messages[i].id == ns[n].shape.parent;
      assert spec.messages[i].id == ns[n].shape.parent;
    }
    FieldedNext(built.messages, ns, n, wordings, wordings');
  }

  method EmitFields(compiler: Compiler)
    requires compiler.Emitting(|compiler.order|)
    requires var ns := NodesOf(compiler.order, compiler.nodes); Settled(ns, |ns|, 0, compiler.mapped, compiler.gaps)
    modifies compiler`spec, compiler`requirements, compiler`wordings, compiler`mapped, compiler`gaps, compiler`cited
    ensures compiler.Emitting(|compiler.order|)
    ensures old(compiler.mapped) <= compiler.mapped && old(compiler.gaps) <= compiler.gaps
    ensures Extends(old(compiler.wordings), compiler.wordings)
    ensures var ns := NodesOf(compiler.order, compiler.nodes);
      && Settled(ns, |ns|, |ns|, compiler.mapped, compiler.gaps)
      && FieldsDone(ns, |ns|, old(compiler.spec), compiler.spec, compiler.wordings)
    ensures var ns, messages := NodesOf(compiler.order, compiler.nodes), old(compiler.spec.messages);
      && compiler.cited == old(compiler.cited) + Only(ns, (c: Claim) => Joins(messages, c))
      && FieldsAccount(ns, messages, |ns|, old(compiler.mapped), old(compiler.gaps), compiler.mapped, compiler.gaps)
  {
    ghost var ns, messages := NodesOf(compiler.order, compiler.nodes), compiler.spec.messages;
    ghost var mapped, gaps := compiler.mapped, compiler.gaps;
    ghost var joins := (c: Claim) => Joins(messages, c);
    for n := 0 to |compiler.order|
      invariant compiler.cited == old(compiler.cited) + Only(ns[..n], joins)
      invariant FieldsAccount(ns, messages, n, mapped, gaps, compiler.mapped, compiler.gaps)
      invariant compiler.Emitting(|compiler.order|)
      invariant old(compiler.mapped) <= compiler.mapped && old(compiler.gaps) <= compiler.gaps
      invariant Extends(old(compiler.wordings), compiler.wordings)
      invariant Settled(ns, |ns|, n, compiler.mapped, compiler.gaps)
      invariant FieldsDone(ns, n, old(compiler.spec), compiler.spec, compiler.wordings)
    {
      EmitNextField(compiler, ns, n, old(compiler.spec), old(compiler.cited), mapped, gaps, joins);
    }
    assert ns[..|ns|] == ns;
  }

  method EmitNextField(compiler: Compiler, ghost ns: seq<Claim>, n: nat, ghost built: Spec, ghost cited: seq<Claim>,
                       ghost mapped: seq<string>, ghost gaps: seq<string>, ghost joins: Claim -> bool)
    requires n < |compiler.order| && compiler.Emitting(|compiler.order|) && ns == NodesOf(compiler.order, compiler.nodes)
    requires Settled(ns, |ns|, n, compiler.mapped, compiler.gaps)
    requires FieldsDone(ns, n, built, compiler.spec, compiler.wordings)
    requires (forall c :: joins(c) == Joins(built.messages, c)) && compiler.cited == cited + Only(ns[..n], joins)
    requires FieldsAccount(ns, built.messages, n, mapped, gaps, compiler.mapped, compiler.gaps)
    modifies compiler`spec, compiler`requirements, compiler`wordings, compiler`mapped, compiler`gaps, compiler`cited
    ensures compiler.Emitting(|compiler.order|)
    ensures old(compiler.mapped) <= compiler.mapped && old(compiler.gaps) <= compiler.gaps
    ensures Extends(old(compiler.wordings), compiler.wordings)
    ensures Settled(ns, |ns|, n + 1, compiler.mapped, compiler.gaps)
    ensures FieldsDone(ns, n + 1, built, compiler.spec, compiler.wordings)
    ensures compiler.cited == cited + Only(ns[..n + 1], joins)
    ensures FieldsAccount(ns, built.messages, n + 1, mapped, gaps, compiler.mapped, compiler.gaps)
  {
    ghost var spec, wordings, known, were := compiler.spec, compiler.wordings, compiler.mapped, compiler.gaps;
    JoinsSame(built.messages, spec.messages, ns[n]);
    EmitIfField(compiler, compiler.nodes[compiler.order[n]]);
    SettledNext(ns, |ns|, n, known, were, |ns|, n + 1, compiler.mapped, compiler.gaps);
    FieldDone(ns, n, built, spec, wordings, compiler.spec, compiler.wordings);
    FieldAccounted(ns, built.messages, n, mapped, gaps, known, were, compiler.mapped, compiler.gaps);
    OnlyNext(ns, n, joins);
  }

  method EmitIfField(compiler: Compiler, c: Claim)
    requires compiler.Emitting(|compiler.order|)
    modifies compiler`spec, compiler`requirements, compiler`wordings, compiler`mapped, compiler`gaps, compiler`cited
    ensures compiler.Emitting(|compiler.order|) && Extends(old(compiler.wordings), compiler.wordings)
    ensures var joins := Joins(old(compiler.spec).messages, c);
      && (joins ==> c.wording in compiler.wordings)
      && compiler.cited == old(compiler.cited) + (if joins then [c] else [])
      && compiler.mapped == old(compiler.mapped) + (if joins then [c.id] + [c.id] else [])
      && compiler.gaps == old(compiler.gaps) + (if c.kind == Field && !joins then [c.id] else [])
    ensures c.kind == Field ==> Accounted(c, compiler.mapped, compiler.gaps)
    ensures var spec := old(compiler.spec);
      compiler.spec == if c.kind == Field then spec.(messages := JoinedAll(spec.messages, c, compiler.wordings)) else spec
  {
    if c.kind == Field {
      ghost var spec := compiler.spec;
      compiler.EmitField(c);
      assert compiler.spec.messages == JoinedAll(spec.messages, c, compiler.wordings);
    }
  }

  lemma EmittedWhole(ns: seq<Claim>, built: Spec, before: map<string, string>, mapped: seq<string>, spec: Spec, after: map<string, string>)
    requires NodesDone(ns, |ns|, built, before, mapped) && FieldsDone(ns, |ns|, built, spec, after) && Extends(before, after)
    ensures spec == Emitted(ns, after) && EntriesMapped(ns, mapped)
    ensures EntriesKnown(ns, after) && FieldsKnown(spec.messages, ns, after)
  {
    assert ns[..|ns|] == ns;
    BuiltStill(ns, before, after);
    forall i | 0 <= i < |ns| && Joins(spec.messages, ns[i]) ensures ns[i].wording in after {
      JoinsSame(built.messages, spec.messages, ns[i]);
    }
  }

  lemma {:induction false} OnlySame(cs: seq<Claim>, p: Claim -> bool, q: Claim -> bool)
    requires forall c :: p(c) == q(c)
    ensures Only(cs, p) == Only(cs, q)
  {
    if |cs| > 0 { OnlySame(cs[..|cs| - 1], p, q); }
  }

  lemma SameMessages(cited: seq<Claim>, claims: seq<Claim>, ns: seq<Claim>, messages: seq<Entry>, others: seq<Entry>,
                     mapped: seq<string>, gaps: seq<string>)
    requires |messages| == |others| && forall i | 0 <= i < |messages| :: messages[i].id == others[i].id
    requires CitedInOrder(cited, claims, ns, messages) && AccountExact(claims, ns, messages, mapped, gaps)
    ensures CitedInOrder(cited, claims, ns, others) && AccountExact(claims, ns, others, mapped, gaps)
  {
    forall c ensures Joins(messages, c) == Joins(others, c) { JoinsSame(messages, others, c); }
    OnlySame(ns, (c: Claim) => Joins(messages, c), (c: Claim) => Joins(others, c));
  }

  /** Both passes over the nodes. */
  method EmitAll(compiler: Compiler, ghost claims: seq<Claim>)
    requires compiler.Emitting(0) && compiler.spec == Spec(None, [], [])
    requires TakenAccount(claims, compiler.mapped, compiler.gaps) && compiler.cited == Only(claims, IsRequirement)
    modifies compiler`spec, compiler`requirements, compiler`wordings, compiler`mapped, compiler`gaps, compiler`cited
    ensures compiler.Emitting(|compiler.order|)
    ensures old(compiler.mapped) <= compiler.mapped && old(compiler.gaps) <= compiler.gaps
    ensures var ns := NodesOf(compiler.order, compiler.nodes);
      && Settled(ns, |ns|, |ns|, compiler.mapped, compiler.gaps)
      && compiler.spec == Emitted(ns, compiler.wordings) && EntriesMapped(ns, compiler.mapped)
      && EntriesKnown(ns, compiler.wordings) && FieldsKnown(compiler.spec.messages, ns, compiler.wordings)
      && CitedInOrder(compiler.cited, claims, ns, compiler.spec.messages)
      && AccountExact(claims, ns, compiler.spec.messages, compiler.mapped, compiler.gaps)
  {
    ghost var ns, mapped, gaps := NodesOf(compiler.order, compiler.nodes), compiler.mapped, compiler.gaps;
    EmitNodes(compiler);
    ghost var built, wordings, entered, left := compiler.spec, compiler.wordings, compiler.mapped, compiler.gaps;
    EmitFields(compiler);
    AccountedExactly(claims, ns, built.messages, mapped, gaps, entered, left, compiler.mapped, compiler.gaps);
    SameMessages(compiler.cited, claims, ns, built.messages, compiler.spec.messages, compiler.mapped, compiler.gaps);
    EmittedWhole(NodesOf(compiler.order, compiler.nodes), built, wordings, entered, compiler.spec, compiler.wordings);
  }
}
