/** Merging the candidate definitions of one node: structural containment of JSON values and the
    fold that keeps one candidate. */
module Merge {
  /** JSON values, scalars by the values the source compares them as. */
  datatype Json = Num(number: real) | Str(text: string) | Null | Arr(items: seq<Json>) | Obj(fields: map<string, Json>)

  /** The source's recursive test: every part of `part` stands, equal or contained, in `container`.
      Scalars contain nothing, and arrays are compared regardless of order and count. */
  predicate Contains(container: Json, part: Json)
    decreases part, 0
  {
    match (container, part)
    case (Obj(have), Obj(want)) => forall k | k in want :: k in have && Covers(have[k], want[k])
    case (Arr(have), Arr(want)) => forall j | 0 <= j < |want| :: SomeCovers(have, want[j])
    case _ => false
  }

  predicate Covers(a: Json, b: Json)
    decreases b, 1
  {
    a == b || Contains(a, b)
  }

  predicate SomeCovers(items: seq<Json>, v: Json)
    decreases v, 2
  {
    exists i :: 0 <= i < |items| && Covers(items[i], v)
  }

  predicate Comparable(a: Json, b: Json) { Covers(a, b) || Covers(b, a) }

  /** Containment composes. */
  lemma {:induction false} ContainsTransitive(a: Json, b: Json, c: Json)
    requires Contains(a, b) && Contains(b, c)
    ensures Contains(a, c)
    decreases c, 0
  {
    if c.Obj? {
      forall k | k in c.fields ensures k in a.fields && Covers(a.fields[k], c.fields[k]) {
        assert Covers(a.fields[k], b.fields[k]);
        CoversTransitive(a.fields[k], b.fields[k], c.fields[k]);
      }
    } else {
      forall l | 0 <= l < |c.items| ensures SomeCovers(a.items, c.items[l]) {
        assert SomeCovers(b.items, c.items[l]);
        var j :| 0 <= j < |b.items| && Covers(b.items[j], c.items[l]);
        assert SomeCovers(a.items, b.items[j]);
        var i :| 0 <= i < |a.items| && Covers(a.items[i], b.items[j]);
        CoversTransitive(a.items[i], b.items[j], c.items[l]);
      }
    }
  }

  lemma {:induction false} CoversTransitive(a: Json, b: Json, c: Json)
    requires Covers(a, b) && Covers(b, c)
    ensures Covers(a, c)
    decreases c, 1
  {
    if a != b && b != c { ContainsTransitive(a, b, c); }
  }

  // ------------------------------------------------------------------ two values that contain each other

  predicate ListFree(v: Json)
    decreases v
  {
    !v.Arr? && (v.Obj? ==> forall k | k in v.fields :: ListFree(v.fields[k]))
  }

  /** Without lists, values that contain each other are equal, so a merge loses nothing. */
  lemma {:induction false} ListFreeAntisymmetric(a: Json, b: Json)
    requires Covers(a, b) && Covers(b, a) && ListFree(a)
    ensures a == b
    decreases a
  {
    if Contains(a, b) && Contains(b, a) {
      forall k | k in a.fields ensures k in b.fields && a.fields[k] == b.fields[k] {
        assert Covers(b.fields[k], a.fields[k]);
        ListFreeAntisymmetric(a.fields[k], b.fields[k]);
      }
      assert a.fields == b.fields;
    }
  }

  predicate Flat(items: seq<Json>) { forall i | 0 <= i < |items| :: !items[i].Arr? && !items[i].Obj? }

  /** Lists of scalars contain each other exactly when they have the same elements: their order and
      repetitions, a message's wire layout for one, are merged away without a conflict. */
  lemma FlatListsInterchangeableIff(xs: seq<Json>, ys: seq<Json>)
    requires Flat(xs) && Flat(ys)
    ensures Contains(Arr(xs), Arr(ys)) && Contains(Arr(ys), Arr(xs)) <==> (forall v :: v in xs <==> v in ys)
  {
    FlatContainsIff(xs, ys);
    FlatContainsIff(ys, xs);
  }

  lemma FlatContainsIff(xs: seq<Json>, ys: seq<Json>)
    requires Flat(xs) && Flat(ys)
    ensures Contains(Arr(xs), Arr(ys)) <==> forall v | v in ys :: v in xs
  {
    if Contains(Arr(xs), Arr(ys)) {
      forall j | 0 <= j < |ys| ensures ys[j] in xs {
        assert SomeCovers(xs, ys[j]);
        var i :| 0 <= i < |xs| && Covers(xs[i], ys[j]);
        assert !Contains(xs[i], ys[j]) by { assert !ys[j].Arr? && !ys[j].Obj?; }
      }
    }
    if forall v | v in ys :: v in xs {
      forall j | 0 <= j < |ys| ensures SomeCovers(xs, ys[j]) {
        assert ys[j] in xs;
        var i :| 0 <= i < |xs| && xs[i] == ys[j];
        assert Covers(xs[i], ys[j]);
      }
    }
  }

  // ------------------------------------------------------------------ the fold

  datatype Candidate = Candidate(value: Json, confidence: real)

  datatype Verdict = Same | Richer | Poorer | Conflict(takes: bool)

  predicate Outranks(c: Candidate, held: Candidate, specificity: Json -> nat) {
    || c.confidence > held.confidence
    || (c.confidence == held.confidence && specificity(c.value) > specificity(held.value))
  }

  /** How a new candidate stands to the one held for its key. */
  function Judge(held: Candidate, c: Candidate, specificity: Json -> nat): Verdict {
    if c.value == held.value then Same
    else if Contains(c.value, held.value) then Richer
    else if Contains(held.value, c.value) then Poorer
    else Conflict(Outranks(c, held, specificity))
  }

  /** A value not comparable with the one held replaces it when it is more trusted, or as trusted and more specific. */
  lemma JudgeIs(held: Candidate, c: Candidate, specificity: Json -> nat)
    ensures var verdict := Judge(held, c, specificity);
      && (verdict == Same <==> c.value == held.value)
      && (verdict == Richer <==> c.value != held.value && Contains(c.value, held.value))
      && (verdict == Poorer <==> c.value != held.value && !Contains(c.value, held.value) && Contains(held.value, c.value))
      && (verdict.Conflict? <==> !Comparable(held.value, c.value))
      && (verdict == Conflict(true) <==>
            && !Comparable(held.value, c.value)
            && (|| held.confidence < c.confidence
                || (held.confidence == c.confidence && specificity(held.value) < specificity(c.value))))
  {
  }

  function Survivor(held: Candidate, c: Candidate, verdict: Verdict): Candidate {
    if verdict == Richer || verdict == Conflict(true) then c else held
  }

  datatype Slot = Slot(held: Candidate, conflict: bool)

  function Fold(cs: seq<Candidate>, specificity: Json -> nat): Slot
    requires |cs| > 0
  {
    if |cs| == 1 then Slot(cs[0], false)
    else
      var before, c := Fold(cs[..|cs| - 1], specificity), cs[|cs| - 1];
      var verdict := Judge(before.held, c, specificity);
      Slot(Survivor(before.held, c, verdict), before.conflict || verdict.Conflict?)
  }

  /** Unless a conflict is recorded for the key, the surviving value covers every candidate seen. */
  lemma {:induction false} SurvivorCovers(cs: seq<Candidate>, specificity: Json -> nat, i: nat)
    requires i < |cs| && !Fold(cs, specificity).conflict
    ensures Covers(Fold(cs, specificity).held.value, cs[i].value)
    decreases |cs|
  {
    if |cs| > 1 {
      var n := |cs| - 1;
      var before := Fold(cs[..n], specificity);
      if i < n {
        SurvivorCovers(cs[..n], specificity, i);
        CoversTransitive(Fold(cs, specificity).held.value, before.held.value, cs[i].value);
      }
    }
  }

  lemma {:induction false} SurvivorIsCandidate(cs: seq<Candidate>, specificity: Json -> nat) returns (i: nat)
    requires |cs| > 0
    ensures i < |cs| && Fold(cs, specificity).held == cs[i]
    decreases |cs|
  {
    if |cs| == 1 {
      i := 0;
    } else {
      i := SurvivorIsCandidate(cs[..|cs| - 1], specificity);
      if Fold(cs, specificity).held != cs[i] { i := |cs| - 1; }
    }
  }

  predicate PairwiseComparable(cs: seq<Candidate>) {
    forall i, j | 0 <= i < j < |cs| :: Comparable(cs[i].value, cs[j].value)
  }

  lemma {:induction false} ComparableFoldsCleanly(cs: seq<Candidate>, specificity: Json -> nat)
    requires |cs| > 0 && PairwiseComparable(cs)
    ensures !Fold(cs, specificity).conflict
    decreases |cs|
  {
    if |cs| > 1 {
      var n := |cs| - 1;
      ComparableFoldsCleanly(cs[..n], specificity);
      var i := SurvivorIsCandidate(cs[..n], specificity);
      assert Comparable(cs[i].value, cs[n].value);
    }
  }

  /** The same candidates with two of them first. */
  function Hoisted(cs: seq<Candidate>, i: nat, j: nat): seq<Candidate>
    requires i < j < |cs|
  {
    [cs[i], cs[j]] + (cs[..i] + cs[i + 1..j] + cs[j + 1..])
  }

  lemma HoistedRearranges(cs: seq<Candidate>, i: nat, j: nat)
    requires i < j < |cs|
    ensures multiset(Hoisted(cs, i, j)) == multiset(cs)
  {
    assert cs == cs[..i] + [cs[i]] + cs[i + 1..j] + [cs[j]] + cs[j + 1..];
  }

  lemma IncomparableFirstConflict(cs: seq<Candidate>, specificity: Json -> nat)
    requires |cs| >= 2 && !Comparable(cs[0].value, cs[1].value)
    ensures Fold(cs, specificity).conflict
  {
  }

  /** Whether a key's candidates conflict depends on the order they come in, unless every two of
      them are comparable: exactly then no order conflicts. */
  lemma NoOrderConflictsIff(cs: seq<Candidate>, specificity: Json -> nat)
    requires |cs| > 0
    ensures (forall order: seq<Candidate> | |order| > 0 && multiset(order) == multiset(cs) :: !Fold(order, specificity).conflict)
        <==> PairwiseComparable(cs)
  {
    if PairwiseComparable(cs) {
      forall order: seq<Candidate> | |order| > 0 && multiset(order) == multiset(cs)
        ensures !Fold(order, specificity).conflict
      {
        RearrangedComparable(cs, order);
        ComparableFoldsCleanly(order, specificity);
      }
    } else {
      var i, j :| 0 <= i < j < |cs| && !Comparable(cs[i].value, cs[j].value);
      HoistedRearranges(cs, i, j);
      IncomparableFirstConflict(Hoisted(cs, i, j), specificity);
    }
  }

  lemma RearrangedComparable(cs: seq<Candidate>, order: seq<Candidate>)
    requires multiset(order) == multiset(cs) && PairwiseComparable(cs)
    ensures PairwiseComparable(order)
  {
    forall i, j | 0 <= i < j < |order| ensures Comparable(order[i].value, order[j].value) {
      assert order[i] in multiset(cs) && order[j] in multiset(cs);
      var k :| 0 <= k < |cs| && cs[k] == order[i];
      var l :| 0 <= l < |cs| && cs[l] == order[j];
      if k < l { assert Comparable(cs[k].value, cs[l].value); }
      if l < k { assert Comparable(cs[l].value, cs[k].value); }
    }
  }

  // ------------------------------------------------------------------ the order of candidates

  /** One candidate covers all the others. */
  predicate Dominates(cs: seq<Candidate>, i: nat) {
    i < |cs| && forall j | 0 <= j < |cs| :: Covers(cs[i].value, cs[j].value)
  }

  /** A fold whose held value covers all candidates to come never conflicts. */
  lemma {:induction false} CoveredFoldsCleanly(first: Candidate, rest: seq<Candidate>, specificity: Json -> nat)
    requires forall j | 0 <= j < |rest| :: Covers(first.value, rest[j].value)
    ensures !Fold([first] + rest, specificity).conflict
    ensures Covers(Fold([first] + rest, specificity).held.value, first.value)
    decreases |rest|
  {
    if rest != [] {
      var n := |rest| - 1;
      assert ([first] + rest)[..n + 1] == [first] + rest[..n];
      CoveredFoldsCleanly(first, rest[..n], specificity);
      var before := Fold([first] + rest[..n], specificity);
      CoversTransitive(before.held.value, first.value, rest[n].value);
      CoversTransitive(Fold([first] + rest, specificity).held.value, before.held.value, first.value);
    } else {
      assert [first] + rest == [first];
    }
  }

  /** Candidate i first, the others in order. */
  function Promoted(cs: seq<Candidate>, i: nat): seq<Candidate>
    requires i < |cs|
  {
    [cs[i]] + (cs[..i] + cs[i + 1..])
  }

  /** A key's candidates can be met in some order without a conflict exactly when one of them covers
      all the others. */
  lemma CleanOrderExistsIff(cs: seq<Candidate>, specificity: Json -> nat)
    requires |cs| > 0
    ensures (exists order: seq<Candidate> :: |order| > 0 && multiset(order) == multiset(cs) && !Fold(order, specificity).conflict)
        <==> exists i: nat :: Dominates(cs, i)
  {
    if i: nat :| Dominates(cs, i) {
      PromotedRearranges(cs, i);
      CoveredFoldsCleanly(cs[i], cs[..i] + cs[i + 1..], specificity);
    }
    if order: seq<Candidate> :| |order| > 0 && multiset(order) == multiset(cs) && !Fold(order, specificity).conflict {
      var i := CleanOrderDominates(cs, order, specificity);
    }
  }

  lemma PromotedRearranges(cs: seq<Candidate>, i: nat)
    requires i < |cs|
    ensures multiset(Promoted(cs, i)) == multiset(cs)
  {
    assert cs == cs[..i] + [cs[i]] + cs[i + 1..];
  }

  lemma Among(cs: seq<Candidate>, order: seq<Candidate>, k: nat) returns (i: nat)
    requires multiset(order) == multiset(cs) && k < |order|
    ensures i < |cs| && cs[i] == order[k]
  {
    assert order[k] in multiset(cs);
    i :| 0 <= i < |cs| && cs[i] == order[k];
  }

  lemma CleanOrderDominates(cs: seq<Candidate>, order: seq<Candidate>, specificity: Json -> nat) returns (i: nat)
    requires |order| > 0 && multiset(order) == multiset(cs) && !Fold(order, specificity).conflict
    ensures Dominates(cs, i)
  {
    var k := SurvivorIsCandidate(order, specificity);
    i := Among(cs, order, k);
    forall j | 0 <= j < |cs| ensures Covers(cs[i].value, cs[j].value) {
      var l := Among(order, cs, j);
      SurvivorCovers(order, specificity, l);
    }
  }

  /** Whether a key's candidates conflict is independent of their order exactly when every two of them
      are comparable or none of them covers all the others. */
  lemma OrderIndependentIff(cs: seq<Candidate>, specificity: Json -> nat)
    requires |cs| > 0
    ensures (forall one: seq<Candidate>, other: seq<Candidate>
               | |one| > 0 && multiset(one) == multiset(cs) && |other| > 0 && multiset(other) == multiset(cs) ::
               Fold(one, specificity).conflict == Fold(other, specificity).conflict)
        <==> PairwiseComparable(cs) || !exists i: nat :: Dominates(cs, i)
  {
    NoOrderConflictsIff(cs, specificity);
    CleanOrderExistsIff(cs, specificity);
  }

  const X := Obj(map["x" := Num(1.0)])
  const Y := Obj(map["y" := Num(1.0)])
  const BOTH := Obj(map["x" := Num(1.0), "y" := Num(1.0)])

  lemma ExampleValues()
    ensures !Comparable(X, Y) && Contains(BOTH, X) && Contains(BOTH, Y) && BOTH != X && BOTH != Y
  {
    assert "x" in X.fields && "x" !in Y.fields && "y" in Y.fields && "y" !in X.fields;
    assert "x" in BOTH.fields && "y" in BOTH.fields;
  }

  /** Two definitions with a field each and one with both merge when the last comes between them and
      conflict when it comes last. */
  lemma OrderMatters(specificity: Json -> nat)
    ensures var a, b, c := Candidate(X, 1.0), Candidate(Y, 1.0), Candidate(BOTH, 1.0);
      !Fold([a, c, b], specificity).conflict && Fold([a, b, c], specificity).conflict
  {
    var a, b, c := Candidate(X, 1.0), Candidate(Y, 1.0), Candidate(BOTH, 1.0);
    ExampleValues();
    IncomparableFirstConflict([a, b, c], specificity);
    CoveredInBetween(a, b, c, specificity);
  }

  lemma CoveredInBetween(a: Candidate, b: Candidate, c: Candidate, specificity: Json -> nat)
    requires Contains(c.value, a.value) && Contains(c.value, b.value) && c.value != a.value && c.value != b.value
    ensures !Fold([a, c, b], specificity).conflict
  {
    assert [a, c][..1] == [a] && Fold([a], specificity) == Slot(a, false);
    assert Judge(a, c, specificity) == Richer && Fold([a, c], specificity) == Slot(c, false);
    assert [a, c, b][..2] == [a, c];
  }
}
