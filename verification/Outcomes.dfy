/** Result types shared by every module; what several modules say of sequences and of searching texts;
    sums of amounts. */
module Outcomes {
  datatype Option<+T> = None | Some(value: T)

  datatype Result<+T, +E> = Ok(value: T) | Err(error: E) {
    predicate IsFailure() { Err? }

    function PropagateFailure<U>(): Result<U, E>
      requires Err?
    {
      Err(error)
    }

    function Extract(): T
      requires Ok?
    {
      value
    }
  }
}

module Sequences {
  predicate Unique<T(==)>(xs: seq<T>) {
    forall i, j | 0 <= i < j < |xs| :: xs[i] != xs[j]
  }

  function Elements<T(==)>(xs: seq<T>): set<T> { set x | x in xs }

  /** Texts with a line feed between each and the next. */
  function Join(texts: seq<string>): string {
    if |texts| == 0 then "" else if |texts| == 1 then texts[0] else Join(texts[..|texts| - 1]) + "\n" + texts[|texts| - 1]
  }
}

module Searching {
  predicate Occurs(s: string, mark: string, i: nat) { i + |mark| <= |s| && s[i..i + |mark|] == mark }

  /** The first place at or after `from` where the mark stands, or the length of s. */
  function Find(s: string, mark: string, from: nat): nat
    requires from <= |s|
    decreases |s| - from
  {
    if from == |s| || Occurs(s, mark, from) then from else Find(s, mark, from + 1)
  }

  lemma {:induction false} FindIsFirst(s: string, mark: string, from: nat)
    requires from <= |s|
    ensures from <= Find(s, mark, from) <= |s|
    ensures Find(s, mark, from) < |s| ==> Occurs(s, mark, Find(s, mark, from))
    ensures forall i | from <= i < Find(s, mark, from) :: !Occurs(s, mark, i)
    decreases |s| - from
  {
    if from < |s| && !Occurs(s, mark, from) {
      FindIsFirst(s, mark, from + 1);
    }
  }
}

module Sums {
  /** The sum of a sequence of amounts. */
  function Sum(xs: seq<real>): real {
    if |xs| == 0 then 0.0 else Sum(xs[..|xs| - 1]) + xs[|xs| - 1]
  }

  /** Replacing one entry moves the sum by exactly the difference. */
  lemma {:induction false} SumUpdate(xs: seq<real>, i: nat, v: real)
    requires i < |xs|
    ensures Sum(xs[i := v]) == Sum(xs) - xs[i] + v
  {
    var n := |xs| - 1;
    if i == n {
      assert xs[i := v][..n] == xs[..n];
    } else {
      assert xs[i := v][..n] == xs[..n][i := v];
      SumUpdate(xs[..n], i, v);
    }
  }

  lemma {:induction false} SumAppend(xs: seq<real>, v: real)
    ensures Sum(xs + [v]) == Sum(xs) + v
  {
  }

  /** Sums respect pointwise order. */
  lemma {:induction false} SumMonotone(xs: seq<real>, ys: seq<real>)
    requires |xs| == |ys|
    requires forall i | 0 <= i < |xs| :: xs[i] <= ys[i]
    ensures Sum(xs) <= Sum(ys)
  {
    if |xs| != 0 {
      var n := |xs| - 1;
      SumMonotone(xs[..n], ys[..n]);
    }
  }

  /** Sums are additive over a pointwise sum. */
  lemma {:induction false} SumAdd(xs: seq<real>, ys: seq<real>, zs: seq<real>)
    requires |xs| == |ys| == |zs|
    requires forall i | 0 <= i < |xs| :: zs[i] == xs[i] + ys[i]
    ensures Sum(zs) == Sum(xs) + Sum(ys)
  {
    if |xs| != 0 {
      var n := |xs| - 1;
      SumAdd(xs[..n], ys[..n], zs[..n]);
    }
  }
}
