/** The slice of a specification that goes with one message: the types its fields lead to, however
    the types refer to each other, and the requirements all of these cite. */
module TypeClosure {
  import opened Outcomes

  datatype Encoding = Encoding(
    itemType: Option<string>,
    lengthType: Option<string>,
    baseType: Option<string>,
    members: seq<string>)

  datatype Type = Type(id: string, encoding: Encoding, requirements: seq<string>)

  datatype Field = Field(typeId: string, requirements: seq<string>)

  datatype Message = Message(id: string, fields: seq<Field>, requirements: seq<string>)

  datatype Slice = Slice(message: Message, types: seq<Type>, requirements: seq<string>)

  function Listed(ref: Option<string>): seq<string> { if ref.Some? then [ref.value] else [] }

  /** Every type name an encoding mentions, in the order the source collects them. */
  function Dependencies(t: Type): (names: seq<string>)
    ensures forall name :: name in names <==>
      || t.encoding.itemType == Some(name) || t.encoding.lengthType == Some(name) || t.encoding.baseType == Some(name)
      || name in t.encoding.members
  {
    Listed(t.encoding.itemType) + Listed(t.encoding.lengthType) + Listed(t.encoding.baseType) + t.encoding.members
  }

  /** Types by id; of two with the same id the later one counts. */
  function Definitions(types: seq<Type>): map<string, Type> {
    if |types| == 0 then map[]
    else Definitions(types[..|types| - 1])[types[|types| - 1].id := types[|types| - 1]]
  }

  function FieldTypes(message: Message): seq<string> {
    seq(|message.fields|, i requires 0 <= i < |message.fields| => message.fields[i].typeId)
  }

  // ------------------------------------------------------------------ reachability

  /** A chain of defined types from one of the roots to its last element. */
  ghost predicate Path(defs: map<string, Type>, roots: seq<string>, path: seq<string>) {
    && |path| > 0
    && path[0] in roots
    && (forall i | 0 <= i < |path| :: path[i] in defs)
    && (forall i | 0 <= i < |path| - 1 :: path[i + 1] in Dependencies(defs[path[i]]))
  }

  ghost predicate Reachable(defs: map<string, Type>, roots: seq<string>, id: string) {
    exists path :: Path(defs, roots, path) && path[|path| - 1] == id
  }

  ghost function Reach(defs: map<string, Type>, roots: seq<string>): set<string> {
    set id | id in defs && Reachable(defs, roots, id)
  }

  lemma RootReachable(defs: map<string, Type>, roots: seq<string>, id: string)
    requires id in roots && id in defs
    ensures Reachable(defs, roots, id)
  {
    assert Path(defs, roots, [id]);
  }

  lemma DependencyReachable(defs: map<string, Type>, roots: seq<string>, from: string, to: string)
    requires Reachable(defs, roots, from) && from in defs && to in defs && to in Dependencies(defs[from])
    ensures Reachable(defs, roots, to)
  {
    var path :| Path(defs, roots, path) && path[|path| - 1] == from;
    var longer := path + [to];
    forall i | 0 <= i < |longer| - 1 ensures longer[i + 1] in Dependencies(defs[longer[i]]) {
      if i < |path| - 1 { assert path[i + 1] in Dependencies(defs[path[i]]); }
    }
    assert Path(defs, roots, longer);
  }

  /** A set of names holding the defined roots and closed under defined dependencies. */
  ghost predicate Closed(defs: map<string, Type>, roots: seq<string>, ids: set<string>) {
    && (forall r | r in roots && r in defs :: r in ids)
    && (forall id, d | id in ids && id in defs && d in Dependencies(defs[id]) && d in defs :: d in ids)
  }

  lemma {:induction false} PathStaysInside(defs: map<string, Type>, roots: seq<string>, ids: set<string>, path: seq<string>)
    requires Closed(defs, roots, ids) && Path(defs, roots, path)
    ensures path[|path| - 1] in ids
    decreases |path|
  {
    if |path| > 1 {
      var front := path[..|path| - 1];
      assert forall i | 0 <= i < |front| - 1 :: front[i + 1] in Dependencies(defs[front[i]]);
      PathStaysInside(defs, roots, ids, front);
      assert path[|path| - 2 + 1] in Dependencies(defs[path[|path| - 2]]);
    }
  }

  /** What is reachable is the least closed set. */
  lemma ReachIsLeastClosed(defs: map<string, Type>, roots: seq<string>)
    ensures Closed(defs, roots, Reach(defs, roots))
    ensures forall ids: set<string> | Closed(defs, roots, ids) :: Reach(defs, roots) <= ids
  {
    forall r | r in roots && r in defs ensures r in Reach(defs, roots) {
      RootReachable(defs, roots, r);
    }
    forall id, d | id in Reach(defs, roots) && id in defs && d in Dependencies(defs[id]) && d in defs
      ensures d in Reach(defs, roots)
    {
      DependencyReachable(defs, roots, id, d);
    }
    forall ids: set<string>, id | Closed(defs, roots, ids) && id in Reach(defs, roots) ensures id in ids {
      var path :| Path(defs, roots, path) && path[|path| - 1] == id;
      PathStaysInside(defs, roots, ids, path);
    }
  }

  // ------------------------------------------------------------------ the worklist

  /** What the worklist loop keeps: nothing outside `reach` is taken or waits, and whatever roots and
      taken types lead to is taken or still waits. */
  ghost predicate Progress(defs: map<string, Type>, roots: seq<string>, reach: set<string>, needed: set<string>, pending: seq<string>) {
    && needed <= reach
    && (forall id | id in pending && id in defs :: id in reach)
    && (forall r | r in roots && r in defs :: r in needed || r in pending)
    && (forall id, d | id in needed && id in defs && d in Dependencies(defs[id]) && d in defs :: d in needed || d in pending)
  }

  lemma Skip(defs: map<string, Type>, roots: seq<string>, reach: set<string>, needed: set<string>, pending: seq<string>)
    requires pending != [] && Progress(defs, roots, reach, needed, pending)
    requires var ref := pending[|pending| - 1]; ref in needed || ref !in defs
    ensures Progress(defs, roots, reach, needed, pending[..|pending| - 1])
  {
  }

  lemma Take(defs: map<string, Type>, roots: seq<string>, reach: set<string>, needed: set<string>, pending: seq<string>)
    requires pending != [] && pending[|pending| - 1] in defs
    requires Closed(defs, roots, reach) && Progress(defs, roots, reach, needed, pending)
    ensures var ref := pending[|pending| - 1];
      Progress(defs, roots, reach, needed + {ref}, pending[..|pending| - 1] + Dependencies(defs[ref]))
  {
    var ref := pending[|pending| - 1];
    var rest := pending[..|pending| - 1] + Dependencies(defs[ref]);
    assert forall id | id in pending :: id == ref || id in rest;
  }

  /** The source's loop, for any closed set in place of what is reachable. */
  method Worklist(definitions: map<string, Type>, roots: seq<string>, ghost reach: set<string>) returns (needed: set<string>)
    requires Closed(definitions, roots, reach)
    ensures Closed(definitions, roots, needed) && needed <= reach
  {
    needed := {};
    var pending := roots;
    while pending != []
      invariant Progress(definitions, roots, reach, needed, pending)
      decreases definitions.Keys - needed, |pending|
    {
      var ref := pending[|pending| - 1];
      if ref in needed || ref !in definitions {
        Skip(definitions, roots, reach, needed, pending);
        pending := pending[..|pending| - 1];
      } else {
        Take(definitions, roots, reach, needed, pending);
        needed := needed + {ref};
        pending := pending[..|pending| - 1] + Dependencies(definitions[ref]);
      }
    }
  }

  method NeededTypes(types: seq<Type>, message: Message) returns (needed: set<string>)
    ensures needed == Reach(Definitions(types), FieldTypes(message))
  {
    ReachIsLeastClosed(Definitions(types), FieldTypes(message));
    needed := Worklist(Definitions(types), FieldTypes(message), Reach(Definitions(types), FieldTypes(message)));
  }

  // ------------------------------------------------------------------ the slice

  function TypesIn(types: seq<Type>, ids: set<string>): seq<Type> {
    if |types| == 0 then []
    else
      var t := types[|types| - 1];
      TypesIn(types[..|types| - 1], ids) + if t.id in ids then [t] else []
  }

  function RequirementsIn(all: seq<string>, refs: set<string>): seq<string> {
    if |all| == 0 then []
    else
      var r := all[|all| - 1];
      RequirementsIn(all[..|all| - 1], refs) + if r in refs then [r] else []
  }

  lemma {:induction false} TypesInExactly(types: seq<Type>, ids: set<string>, t: Type)
    ensures t in TypesIn(types, ids) <==> t in types && t.id in ids
  {
    if |types| > 0 {
      assert types == types[..|types| - 1] + [types[|types| - 1]];
      TypesInExactly(types[..|types| - 1], ids, t);
    }
  }

  lemma {:induction false} RequirementsInExactly(all: seq<string>, refs: set<string>, r: string)
    ensures r in RequirementsIn(all, refs) <==> r in all && r in refs
  {
    if |all| > 0 {
      assert all == all[..|all| - 1] + [all[|all| - 1]];
      RequirementsInExactly(all[..|all| - 1], refs, r);
    }
  }

  predicate Cites(message: Message, types: seq<Type>, r: string) {
    || r in message.requirements
    || (exists f :: f in message.fields && r in f.requirements)
    || (exists t :: t in types && r in t.requirements)
  }

  function References(message: Message, types: seq<Type>): set<string> {
    (set r | r in message.requirements)
    + (set f, r | f in message.fields && r in f.requirements :: r)
    + (set t, r | t in types && r in t.requirements :: r)
  }

  /** The message, its types in specification order, and the requirements cited, also in order. */
  method MessageContext(types: seq<Type>, requirements: seq<string>, message: Message) returns (context: Slice)
    ensures context.message == message
    ensures context.types == TypesIn(types, Reach(Definitions(types), FieldTypes(message)))
    ensures context.requirements == RequirementsIn(requirements, References(message, context.types))
    ensures forall t :: t in context.types <==>
      t in types && t.id in Definitions(types) && Reachable(Definitions(types), FieldTypes(message), t.id)
    ensures forall r :: r in context.requirements <==> r in requirements && Cites(message, context.types, r)
  {
    var needed := NeededTypes(types, message);
    var kept := TypesIn(types, needed);
    context := Slice(message, kept, RequirementsIn(requirements, References(message, kept)));
    forall t ensures t in kept <==> t in types && t.id in needed { TypesInExactly(types, needed, t); }
    forall r ensures r in context.requirements <==> r in requirements && Cites(message, kept, r) {
      RequirementsInExactly(requirements, References(message, kept), r);
    }
  }

  lemma {:induction false} DefinitionsFrom(types: seq<Type>, id: string)
    ensures id in Definitions(types) <==> exists t :: t in types && t.id == id
    ensures id in Definitions(types) ==> Definitions(types)[id] in types && Definitions(types)[id].id == id
  {
    if |types| > 0 {
      assert types == types[..|types| - 1] + [types[|types| - 1]];
      DefinitionsFrom(types[..|types| - 1], id);
    }
  }

  /** The slice loses nothing: a type name used by the message's fields or by the definition that
      counts for a type of the slice is either not defined by the specification or defined in it. */
  lemma SliceSelfContained(types: seq<Type>, message: Message, kept: seq<Type>, user: Type, ref: string)
    requires kept == TypesIn(types, Reach(Definitions(types), FieldTypes(message)))
    requires ref in FieldTypes(message)
          || (user in kept && user.id in Definitions(types) && user == Definitions(types)[user.id] && ref in Dependencies(user))
    ensures ref !in Definitions(types) || (Definitions(types)[ref] in kept && Definitions(types)[ref].id == ref)
  {
    var defs := Definitions(types);
    if ref in defs {
      ReachIsLeastClosed(defs, FieldTypes(message));
      DefinitionsFrom(types, ref);
      TypesInExactly(types, Reach(defs, FieldTypes(message)), user);
      TypesInExactly(types, Reach(defs, FieldTypes(message)), defs[ref]);
    }
  }
}
