/** The model's working context: current observations, and indivisible transactions evicted oldest
    first until the request fits. */
module CodingContext {
  import opened Outcomes
  import opened Observations
  import opened Sequences

  /** What an action reported; `body` is the text of the whole row. */
  datatype Feedback = Feedback(
    body: string,
    gated: bool,
    error: bool,
    returncode: int,
    timedOut: bool,
    read: Option<Observation>)

  datatype Action = Finish | ReadFile | OtherAction

  /** A response and the feedback to it: plain text, or a native message with its call ids. */
  datatype Transaction =
    | Text(response: string, feedback: Feedback)
    | Native(response: string, calls: seq<Option<string>>, feedback: Feedback)

  datatype Content =
    | Initial(base: string, observations: seq<Observation>, diagnostic: Option<Feedback>, evicted: nat)
    | Said(text: string)
    | Reported(feedback: Feedback)

  datatype Role = User | Assistant | Tool(call: string)

  /** A message; the decision budget is appended to the last one only. */
  datatype Message = Message(role: Role, content: Content, budget: Option<string>)

  datatype RequestError = UnmatchedCalls | CapacityExhausted

  // ------------------------------------------------------------------ recording

  predicate IsDiagnostic(action: Option<Action>, f: Feedback) {
    action == Some(Finish) || f.gated || f.error || f.returncode != 0 || f.timedOut
  }

  /** The receipt kept in the history in place of the content of a read. */
  function Receipt(f: Feedback): Feedback
    requires f.read.Some?
  {
    f.(body := "read " + f.read.value.key + " at " + f.read.value.hash, read := Some(f.read.value.(content := "")))
  }

  function Kept(action: Option<Action>, f: Feedback): Feedback {
    if action == Some(ReadFile) && f.read.Some? then Receipt(f) else f
  }

  function WithFeedback(response: Transaction, f: Feedback): Transaction { response.(feedback := f) }

  // ------------------------------------------------------------------ messages

  /** Every native call has an id of its own to answer it by. */
  predicate Matched(t: Transaction) {
    t.Native? ==> (forall i | 0 <= i < |t.calls| :: t.calls[i].Some? && t.calls[i].value != "") && Unique(t.calls)
  }

  /** Calls cannot be answered exactly when one has no id, an empty one, or that of an earlier call. */
  lemma UnmatchedIff(t: Transaction)
    ensures !Matched(t) <==> t.Native? && exists i :: 0 <= i < |t.calls| && Unanswerable(t.calls, i)
  {
    if t.Native? && !Unique(t.calls) {
      var i, j :| 0 <= i < j < |t.calls| && t.calls[i] == t.calls[j];
      assert t.calls[..j][i] == t.calls[j];
      assert Unanswerable(t.calls, j);
    }
    if t.Native? && Unique(t.calls) && !Matched(t) {
      var i :| 0 <= i < |t.calls| && !(t.calls[i].Some? && t.calls[i].value != "");
      assert Unanswerable(t.calls, i);
    }
  }

  predicate Unanswerable(calls: seq<Option<string>>, i: nat)
    requires i < |calls|
  {
    calls[i] == None || calls[i] == Some("") || calls[i] in calls[..i]
  }

  function CallId(id: Option<string>): string { if id.Some? then id.value else "" }

  /** The rows of one transaction: what was said, and a receipt for every call or one reply. */
  function Rows(t: Transaction): seq<Message> {
    [Message(Assistant, Said(t.response), None)] +
    if t.Native? && t.calls != [] then
      seq(|t.calls|, i requires 0 <= i < |t.calls| => Message(Tool(CallId(t.calls[i])), Reported(t.feedback), None))
    else [Message(User, Reported(t.feedback), None)]
  }

  function AllRows(ts: seq<Transaction>): seq<Message> {
    if |ts| == 0 then [] else AllRows(ts[..|ts| - 1]) + Rows(ts[|ts| - 1])
  }

  function Budgeted(messages: seq<Message>, progress: string): seq<Message>
    requires |messages| > 0
  {
    var n := |messages| - 1;
    messages[n := messages[n].(budget := Some(progress))]
  }

  /** The request for a suffix of the transactions. */
  function Messages(initial: Content, ts: seq<Transaction>, progress: string): seq<Message> {
    Budgeted([Message(User, initial, None)] + AllRows(ts), progress)
  }

  /** Where the rows of the k-th transaction start. */
  function Offset(ts: seq<Transaction>, k: nat): nat
    requires k <= |ts|
  {
    1 + |AllRows(ts[..k])|
  }

  lemma {:induction false} RowsStand(ts: seq<Transaction>, k: nat, i: nat)
    requires k < |ts| && i < |Rows(ts[k])|
    ensures |AllRows(ts[..k])| + i < |AllRows(ts)| && AllRows(ts)[|AllRows(ts[..k])| + i] == Rows(ts[k])[i]
    decreases |ts|
  {
    if k < |ts| - 1 {
      assert ts[..|ts| - 1][..k] == ts[..k];
      RowsStand(ts[..|ts| - 1], k, i);
    }
  }

  lemma RowInRequest(initial: Content, ts: seq<Transaction>, progress: string, k: nat, j: nat)
    requires k < |ts| && j < |Rows(ts[k])|
    ensures var messages, at := Messages(initial, ts, progress), Offset(ts, k) + j;
      at < |messages| && messages[at].role == Rows(ts[k])[j].role && messages[at].content == Rows(ts[k])[j].content
  {
    RowsStand(ts, k, j);
  }

  /** In any request, each call of each transaction has its receipt at its own place right after the
      message that made the calls, carrying that transaction's feedback. */
  lemma ReceiptsMatch(initial: Content, ts: seq<Transaction>, progress: string, k: nat, i: nat)
    requires k < |ts| && ts[k].Native? && i < |ts[k].calls| && Matched(ts[k])
    ensures var messages, at := Messages(initial, ts, progress), Offset(ts, k);
      && at + 1 + i < |messages|
      && messages[at].role == Assistant && messages[at].content == Said(ts[k].response)
      && messages[at + 1 + i].role == Tool(ts[k].calls[i].value)
      && messages[at + 1 + i].content == Reported(ts[k].feedback)
  {
    RowInRequest(initial, ts, progress, k, 0);
    RowInRequest(initial, ts, progress, k, 1 + i);
  }

  /** No other row of the transaction answers the same call. */
  lemma OneReceiptEach(t: Transaction, i: nat, j: nat)
    requires t.Native? && i < |t.calls| && Matched(t) && j < |Rows(t)| && j != 1 + i
    ensures Rows(t)[j].role != Tool(t.calls[i].value)
  {
  }

  // ------------------------------------------------------------------ the context

  /** What every request of a context repeats. */
  datatype Facts = Facts(base: string, observations: seq<Observation>, diagnostic: Option<Feedback>)

  /** The request that leaves out the first n transactions ever recorded. */
  function Asked(facts: Facts, recorded: seq<Transaction>, n: nat, progress: string): seq<Message>
    requires n <= |recorded|
  {
    Messages(Initial(facts.base, facts.observations, facts.diagnostic, n), recorded[n..], progress)
  }

  lemma Observed(history: seq<Happening>, h: Happening)
    ensures After(history + [h]) == Then(After(history), h)
  {
    assert (history + [h])[..|history|] == history;
  }

  lemma NewestHeld(recorded: seq<Transaction>, n: nat)
    requires n <= |recorded|
    ensures n < |recorded| ==> recorded[n..] != [] && recorded[n..][|recorded[n..]| - 1] == recorded[|recorded| - 1]
  {
  }

  lemma AllHeld(history: seq<Happening>)
    ensures forall o :: o in After(history) <==> Current(history, o)
  {
    forall o ensures o in After(history) <==> Current(history, o) { HeldIff(history, o); }
  }

  class Context {
    const base: string
    const limit: nat
    const wire: seq<Message> -> nat
    var observations: seq<Observation>
    var transactions: seq<Transaction>
    var evicted: nat
    var latestDiagnostic: Option<Feedback>
    ghost var recorded: seq<Transaction>
    ghost var history: seq<Happening>

    /** The transactions held are the latest ones recorded, the newest always among them; the
        observations are what the reads and requests so far have left. */
    ghost predicate Valid()
      reads this
    {
      && observations == After(history)
      && evicted <= |recorded| && transactions == recorded[evicted..]
      && (|recorded| > 0 ==> evicted < |recorded|)
    }

    function Standing(): Facts
      reads this
    {
      Facts(base, observations, latestDiagnostic)
    }

    constructor (base: string, limit: nat, wire: seq<Message> -> nat, diagnostic: Option<Feedback>)
      ensures Valid() && this.base == base && this.limit == limit && this.wire == wire
      ensures recorded == [] && observations == [] && latestDiagnostic == diagnostic && history == []
    {
      this.base, this.limit, this.wire := base, limit, wire;
      observations, transactions, evicted, latestDiagnostic, recorded := [], [], 0, diagnostic, [];
      history := [];
    }

    /** Files a response and its feedback; the content of a read moves to the observations and only
        its receipt stays. */
    method Record(response: Transaction, feedback: Feedback, action: Option<Action>) returns (kept: Feedback)
      requires Valid()
      modifies this
      ensures Valid() && kept == Kept(action, feedback)
      ensures action != Some(ReadFile) || feedback.read.None? ==> kept == feedback
      ensures action == Some(ReadFile) && feedback.read.Some? ==>
        var o := feedback.read.value;
        && kept == feedback.(body := kept.body, read := kept.read) && kept.read == Some(o.(content := ""))
        && kept.body == "read " + o.key + " at " + o.hash
      ensures latestDiagnostic ==
        if action == Some(Finish) || feedback.gated || feedback.error || feedback.returncode != 0 || feedback.timedOut
        then Some(feedback) else old(latestDiagnostic)
      ensures recorded == old(recorded) + [WithFeedback(response, kept)] && evicted == old(evicted)
      ensures observations ==
        if action == Some(ReadFile) && feedback.read.Some? then Stored(old(observations), feedback.read.value)
        else old(observations)
      ensures history == if action == Some(ReadFile) && feedback.read.Some? then old(history) + [Read(feedback.read.value)]
                         else old(history)
    {
      kept := feedback;
      if IsDiagnostic(action, feedback) {
        latestDiagnostic := Some(feedback);
      }
      if action == Some(ReadFile) && feedback.read.Some? {
        Observed(history, Read(feedback.read.value));
        observations := Stored(observations, feedback.read.value);
        history := history + [Read(feedback.read.value)];
        kept := Receipt(feedback);
      }
      assert (recorded + [WithFeedback(response, kept)])[evicted..] == transactions + [WithFeedback(response, kept)];
      transactions := transactions + [WithFeedback(response, kept)];
      recorded := recorded + [WithFeedback(response, kept)];
    }

    /** Forgets every observation whose file has changed, asking for each file's version once. */
    method DropStale(files: Files)
      requires Valid()
      modifies this`observations, this`history
      ensures Valid() && observations == Fresh(old(observations), files) && history == old(history) + [Requested(files)]
    {
      var versions: map<string, Option<string>> := map[];
      var kept: seq<Observation> := [];
      for i := 0 to |observations|
        invariant forall path | path in versions :: versions[path] == files(path)
        invariant kept == Fresh(observations[..i], files)
      {
        var o := observations[i];
        if o.path !in versions {
          versions := versions[o.path := files(o.path)];
        }
        assert observations[..i + 1][..i] == observations[..i];
        if versions[o.path] == Some(o.hash) {
          kept := kept + [o];
        }
      }
      assert observations[..|observations|] == observations;
      Observed(history, Requested(files));
      observations := kept;
      history := history + [Requested(files)];
    }

    /** Writes out the messages of the transactions held, or finds calls that cannot be answered. */
    method Compose(progress: string) returns (r: Result<seq<Message>, RequestError>)
      requires Valid()
      ensures r.Err? <==> exists t :: t in transactions && !Matched(t)
      ensures r.Err? ==> r.error == UnmatchedCalls
      ensures r.Ok? ==> r.value == Asked(Standing(), recorded, evicted, progress)
    {
      var initial := Message(User, Initial(base, observations, latestDiagnostic, evicted), None);
      var messages := [initial];
      for k := 0 to |transactions|
        invariant messages == [initial] + AllRows(transactions[..k])
        invariant forall i | 0 <= i < k :: Matched(transactions[i])
      {
        assert transactions[..k + 1][..k] == transactions[..k];
        if !Matched(transactions[k]) {
          return Err(UnmatchedCalls);
        }
        messages := messages + Rows(transactions[k]);
      }
      assert transactions[..|transactions|] == transactions;
      return Ok(Budgeted(messages, progress));
    }

    method EvictOldest()
      requires Valid() && |transactions| > 1
      modifies this`transactions, this`evicted
      ensures Valid() && evicted == old(evicted) + 1 && |transactions| == |old(transactions)| - 1
    {
      assert transactions[1..] == recorded[evicted + 1..];
      transactions := transactions[1..];
      evicted := evicted + 1;
    }

    /** Evicts whole transactions, oldest first, while the request is too big and more than one is
        left. */
    method Fit(progress: string) returns (r: Result<seq<Message>, RequestError>)
      requires Valid()
      modifies this`transactions, this`evicted
      ensures Valid() && old(evicted) <= evicted
      ensures r == Err(UnmatchedCalls) <==> exists t :: t in old(transactions) && !Matched(t)
      ensures r.Ok? ==> r.value == Asked(Standing(), recorded, evicted, progress) && wire(r.value) <= limit
      ensures r == Err(CapacityExhausted) ==>
        |transactions| <= 1 && wire(Asked(Standing(), recorded, evicted, progress)) > limit
      ensures forall n | old(evicted) <= n < evicted :: wire(Asked(Standing(), recorded, n, progress)) > limit
    {
      ghost var start := evicted;
      while true
        invariant Valid() && start <= evicted
        invariant evicted > start ==> forall t :: t in recorded[start..] ==> Matched(t)
        invariant forall n | start <= n < evicted :: wire(Asked(Standing(), recorded, n, progress)) > limit
        decreases |transactions|
      {
        r := Compose(progress);
        if r.Err? {
          assert evicted == start;
          return r;
        }
        if wire(r.value) <= limit {
          return r;
        }
        if |transactions| <= 1 {
          return Err(CapacityExhausted);
        }
        EvictOldest();
      }
    }

    /** The request with as much of the history as fits: it never drops a current observation, the
        latest diagnostic or the newest transaction, and fails when even these do not fit. Over the
        context's whole life an observation is held exactly while it is the latest of its read and
        every request since has found its file at that version. */
    method Request(files: Files, progress: string) returns (r: Result<seq<Message>, RequestError>)
      requires Valid()
      modifies this
      ensures Valid() && old(evicted) <= evicted && recorded == old(recorded)
      ensures observations == Fresh(old(observations), files) && latestDiagnostic == old(latestDiagnostic)
      ensures recorded != [] ==> transactions != [] && transactions[|transactions| - 1] == recorded[|recorded| - 1]
      ensures history == old(history) + [Requested(files)]
      ensures forall o :: o in observations <==> Current(history, o)
      ensures r == Err(UnmatchedCalls) <==> exists t :: t in old(transactions) && !Matched(t)
      ensures r.Ok? ==> r.value == Asked(Standing(), recorded, evicted, progress) && wire(r.value) <= limit
      ensures r == Err(CapacityExhausted) ==>
        |transactions| <= 1 && wire(Asked(Standing(), recorded, evicted, progress)) > limit
      ensures forall n | old(evicted) <= n < evicted :: wire(Asked(Standing(), recorded, n, progress)) > limit
    {
      DropStale(files);
      r := Fit(progress);
      AllHeld(history);
      NewestHeld(recorded, evicted);
    }
  }
}
