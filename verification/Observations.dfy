/** File observations: kept while every request finds their files at the versions they were read. */
module Observations {
  import opened Outcomes

  /** One remembered read; its key is the read's arguments. */
  datatype Observation = Observation(key: string, path: string, hash: string, content: string)

  /** Which file versions the workspace holds. */
  type Files = string -> Option<string>

  /** The same read again takes the old one's place; a new one goes last. */
  function Stored(all: seq<Observation>, o: Observation): seq<Observation> {
    if |all| == 0 then [o] else if all[0].key == o.key then [o] + all[1..] else [all[0]] + Stored(all[1..], o)
  }

  // ------------------------------------------------------------------ freshness

  predicate IsFresh(o: Observation, files: Files) { files(o.path) == Some(o.hash) }

  function Fresh(all: seq<Observation>, files: Files): seq<Observation> {
    if |all| == 0 then []
    else
      var o := all[|all| - 1];
      Fresh(all[..|all| - 1], files) + if IsFresh(o, files) then [o] else []
  }

  predicate UniqueKeys(all: seq<Observation>) {
    forall i, j | 0 <= i < j < |all| :: all[i].key != all[j].key
  }

  lemma {:induction false} StoredExactly(all: seq<Observation>, o: Observation, x: Observation)
    requires UniqueKeys(all)
    ensures x in Stored(all, o) <==> x == o || (x in all && x.key != o.key)
  {
    if |all| > 0 {
      assert all == [all[0]] + all[1..];
      if all[0].key == o.key {
        assert x in all[1..] ==> exists j :: 0 < j < |all| && all[j] == x;
      } else {
        StoredExactly(all[1..], o, x);
      }
    }
  }

  lemma {:induction false} StoredUnique(all: seq<Observation>, o: Observation)
    requires UniqueKeys(all)
    ensures UniqueKeys(Stored(all, o))
  {
    if |all| > 0 {
      if all[0].key != o.key {
        StoredUnique(all[1..], o);
        var rest := Stored(all[1..], o);
        forall j | 0 <= j < |rest| ensures rest[j].key != all[0].key {
          StoredExactly(all[1..], o, rest[j]);
          if rest[j] in all[1..] {
            var k :| 0 <= k < |all[1..]| && all[1..][k] == rest[j];
            assert all[k + 1].key != all[0].key;
          }
        }
      }
    }
  }

  lemma {:induction false} FreshExactly(all: seq<Observation>, files: Files, x: Observation)
    ensures x in Fresh(all, files) <==> x in all && IsFresh(x, files)
  {
    if |all| > 0 {
      assert all == all[..|all| - 1] + [all[|all| - 1]];
      FreshExactly(all[..|all| - 1], files, x);
    }
  }

  lemma {:induction false} FreshUnique(all: seq<Observation>, files: Files)
    requires UniqueKeys(all)
    ensures UniqueKeys(Fresh(all, files))
  {
    if |all| > 0 {
      var rest := Fresh(all[..|all| - 1], files);
      FreshUnique(all[..|all| - 1], files);
      forall i | 0 <= i < |rest| ensures rest[i].key != all[|all| - 1].key {
        FreshExactly(all[..|all| - 1], files, rest[i]);
        var k :| 0 <= k < |all| - 1 && all[k] == rest[i];
      }
    }
  }

  /** What happened to a context's observations: reads, and requests with the files they saw. */
  datatype Happening = Read(observation: Observation) | Requested(files: Files)

  ghost function Then(all: seq<Observation>, h: Happening): seq<Observation> {
    match h
    case Read(o) => Stored(all, o)
    case Requested(files) => Fresh(all, files)
  }

  ghost function After(history: seq<Happening>): seq<Observation> {
    if |history| == 0 then [] else Then(After(history[..|history| - 1]), history[|history| - 1])
  }

  /** The i-th happening is the observation's latest read, and every request since has found the
      file at its version. */
  predicate CurrentSince(history: seq<Happening>, o: Observation, i: nat) {
    && i < |history| && history[i] == Read(o)
    && forall j | i < j < |history| :: Spares(history[j], o)
  }

  /** Neither a new read in the observation's place nor a request that finds another version. */
  predicate Spares(h: Happening, o: Observation) {
    match h
    case Read(r) => r.key != o.key
    case Requested(files) => IsFresh(o, files)
  }

  ghost predicate Current(history: seq<Happening>, o: Observation) { exists i :: CurrentSince(history, o, i) }

  lemma CurrentStep(history: seq<Happening>, o: Observation)
    requires |history| > 0
    ensures var past, last := history[..|history| - 1], history[|history| - 1];
      Current(history, o) <==> last == Read(o) || (Current(past, o) && Spares(last, o))
  {
    var n := |history| - 1;
    var past, last := history[..n], history[n];
    if Current(history, o) && last != Read(o) {
      var i :| CurrentSince(history, o, i);
      assert CurrentSince(past, o, i);
    }
    if last == Read(o) {
      assert CurrentSince(history, o, n);
    }
    if Current(past, o) && Spares(last, o) {
      var i :| CurrentSince(past, o, i);
      assert CurrentSince(history, o, i);
    }
  }

  /** An observation is held exactly while it is the latest of its read and every request since has
      found the file at its version; once a request finds another version it is gone for good. */
  lemma {:induction false} HeldIff(history: seq<Happening>, o: Observation)
    ensures UniqueKeys(After(history))
    ensures o in After(history) <==> Current(history, o)
    decreases |history|
  {
    if |history| > 0 {
      var past, last := history[..|history| - 1], history[|history| - 1];
      HeldIff(past, o);
      CurrentStep(history, o);
      match last {
        case Read(r) =>
          StoredExactly(After(past), r, o);
          StoredUnique(After(past), r);
        case Requested(files) =>
          FreshExactly(After(past), files, o);
          FreshUnique(After(past), files);
      }
    }
  }

  /** The receipt left in the history promises the content for as long as the file has that version;
      a file changed and changed back between requests has it again without the content. */
  lemma ReceiptOutlivesContent(o: Observation, changed: Files, restored: Files)
    requires !IsFresh(o, changed) && IsFresh(o, restored)
    ensures o !in After([Read(o), Requested(changed), Requested(restored)])
    ensures o in After([Read(o), Requested(restored)])
  {
    var history := [Read(o), Requested(changed), Requested(restored)];
    HeldIff(history, o);
    assert !Spares(history[1], o);
    var kept := [Read(o), Requested(restored)];
    HeldIff(kept, o);
    assert CurrentSince(kept, o, 0);
  }
}
