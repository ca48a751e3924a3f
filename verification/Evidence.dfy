/** Locating a claim's quotes in the document, and checking the recorded coordinates again. */
module Evidence {
  import opened Outcomes
  import opened Searching
  import opened Segments
  import opened Sequences

  /** A segment under its id. */
  datatype Source = Source(id: string, segment: Segment)

  /** A citation as the model gives it, with a quote of its own or the claim's. */
  datatype Citation = Citation(segmentId: string, quote: Option<string>)

  datatype Item = Item(quote: string, citations: Option<seq<Citation>>)

  datatype Span = Span(segmentId: string, startLine: nat, endLine: nat, startChar: nat, endChar: nat, quote: string)

  datatype Claim = Claim(quote: string, spans: seq<Span>)

  datatype Rejection = NoEvidence | NoSpans | UnknownSegment | QuoteNotPresent | MainQuoteUnsupported

  datatype Fault = UnknownSource(id: string) | QuoteNotInSegment(id: string) | InvalidSpan(id: string)

  /** Of two segments with one id the later counts. */
  function Lookup(document: seq<Source>, id: string): Option<Segment> {
    if |document| == 0 then None
    else if document[|document| - 1].id == id then Some(document[|document| - 1].segment)
    else Lookup(document[..|document| - 1], id)
  }

  // ------------------------------------------------------------------ words

  function WordEnd(s: string): (n: nat)
    ensures n <= |s|
  {
    if s == "" || IsSpace(s[0]) then 0 else 1 + WordEnd(s[1..])
  }

  function Words(s: string): seq<string>
    decreases |s|
  {
    if s == "" then []
    else if IsSpace(s[0]) then Words(s[1..])
    else [s[..WordEnd(s)]] + Words(s[WordEnd(s)..])
  }

  predicate IsWord(w: string) { w != "" && forall i | 0 <= i < |w| :: !IsSpace(w[i]) }

  function Spaced(words: seq<string>): string {
    if |words| == 0 then "" else if |words| == 1 then words[0] else words[0] + " " + Spaced(words[1..])
  }

  /** A text with every run of white space made one blank. */
  function Folded(s: string): string { Spaced(Words(s)) }

  lemma {:induction false} WordEndOf(w: string, rest: string)
    requires (forall i | 0 <= i < |w| :: !IsSpace(w[i])) && (rest == "" || IsSpace(rest[0]))
    ensures WordEnd(w + rest) == |w|
  {
    if w == "" {
      assert w + rest == rest;
    } else {
      assert (w + rest)[1..] == w[1..] + rest;
      WordEndOf(w[1..], rest);
    }
  }

  lemma WordFirst(w: string, rest: string)
    requires IsWord(w) && (rest == "" || IsSpace(rest[0]))
    ensures Words(w + rest) == [w] + Words(rest)
  {
    WordEndOf(w, rest);
    assert (w + rest)[..|w|] == w && (w + rest)[|w|..] == rest;
  }

  lemma {:induction false} WordsAreWords(s: string)
    ensures forall i | 0 <= i < |Words(s)| :: IsWord(Words(s)[i])
    decreases |s|
  {
    if s != "" {
      if IsSpace(s[0]) {
        WordsAreWords(s[1..]);
      } else {
        WordEndClear(s);
        WordsAreWords(s[WordEnd(s)..]);
      }
    }
  }

  lemma {:induction false} WordEndClear(s: string)
    ensures forall i | 0 <= i < WordEnd(s) :: !IsSpace(s[i])
  {
    if s != "" && !IsSpace(s[0]) {
      WordEndClear(s[1..]);
      forall i | 0 <= i < WordEnd(s) ensures !IsSpace(s[i]) {
        if i > 0 { assert s[i] == s[1..][i - 1]; }
      }
    }
  }

  // ------------------------------------------------------------------ folding white space

  predicate AllWords(ws: seq<string>) { forall i | 0 <= i < |ws| :: IsWord(ws[i]) }

  lemma {:induction false} SpacedHasWords(ws: seq<string>)
    requires AllWords(ws)
    ensures Words(Spaced(ws)) == ws
    decreases |ws|
  {
    if |ws| == 1 {
      WordFirst(ws[0], "");
      assert ws[0] + "" == ws[0];
    } else if |ws| > 1 {
      var rest := Spaced(ws[1..]);
      SpacedHasWords(ws[1..]);
      assert ws[0] + " " + rest == ws[0] + (" " + rest);
      WordFirst(ws[0], " " + rest);
      SpacesThen(" ", rest);
      assert ws == [ws[0]] + ws[1..];
    }
  }

  /** White space only as single blanks between other characters. */
  predicate Tidy(s: string) {
    forall i | 0 <= i < |s| && IsSpace(s[i]) :: s[i] == ' ' && 0 < i < |s| - 1 && !IsSpace(s[i - 1]) && !IsSpace(s[i + 1])
  }

  lemma {:induction false} SpacedIsTidy(ws: seq<string>)
    requires AllWords(ws)
    ensures Tidy(Spaced(ws)) && (ws != [] ==> Spaced(ws) != "" && !IsSpace(Spaced(ws)[0]))
    decreases |ws|
  {
    if |ws| > 1 {
      var w, rest, s := ws[0], Spaced(ws[1..]), Spaced(ws);
      SpacedIsTidy(ws[1..]);
      assert s == w + " " + rest;
      forall i | 0 <= i < |s| && IsSpace(s[i])
        ensures s[i] == ' ' && 0 < i < |s| - 1 && !IsSpace(s[i - 1]) && !IsSpace(s[i + 1])
      {
        if i > |w| { assert s[i] == rest[i - |w| - 1]; }
      }
    }
  }

  /** Folding keeps the words, in order, and leaves single blanks between them. */
  lemma FoldedIs(s: string)
    ensures Words(Folded(s)) == Words(s) && Tidy(Folded(s))
  {
    WordsAreWords(s);
    SpacedHasWords(Words(s));
    SpacedIsTidy(Words(s));
  }

  // ------------------------------------------------------------------ locating a quote

  /** The first place of a quote. */
  function Place(text: string, quote: string): Option<nat> {
    FindIsFirst(text, quote, 0);
    var i := Find(text, quote, 0);
    if Occurs(text, quote, i) then Some(i) else None
  }

  function SkipSpaces(text: string, i: nat): (j: nat)
    ensures i <= j && (i <= |text| ==> j <= |text|)
    ensures j < |text| ==> !IsSpace(text[j])
    ensures forall k | i <= k < j :: k < |text| && IsSpace(text[k])
    decreases |text| - i
  {
    if i < |text| && IsSpace(text[i]) then SkipSpaces(text, i + 1) else i
  }

  /** Where the words end that stand at i one after another, white space between them. */
  function MatchWords(text: string, i: nat, words: seq<string>): Option<nat>
    decreases |words|
  {
    if |words| == 0 then Some(i)
    else if !Occurs(text, words[0], i) then None
    else if |words| == 1 then Some(i + |words[0]|)
    else
      var j := i + |words[0]|;
      if SkipSpaces(text, j) == j then None else MatchWords(text, SkipSpaces(text, j), words[1..])
  }

  function SearchWords(text: string, words: seq<string>, i: nat): Option<(nat, nat)>
    decreases |text| - i
  {
    if i > |text| then None
    else if MatchWords(text, i, words).Some? then Some((i, MatchWords(text, i, words).value))
    else SearchWords(text, words, i + 1)
  }

  /** Where a citation stands in a text: exactly, or with the white space folded differently. */
  function Locate(text: string, cited: string): Option<(nat, nat)> {
    var exact := Place(text, cited);
    if exact.Some? then Some((exact.value, exact.value + |cited|)) else SearchWords(text, Words(cited), 0)
  }

  lemma PlaceIff(text: string, quote: string)
    ensures Place(text, quote).Some? ==> Occurs(text, quote, Place(text, quote).value)
    ensures Place(text, quote).None? ==> forall j: nat :: !Occurs(text, quote, j)
  {
    FindIsFirst(text, quote, 0);
  }

  lemma {:induction false} SpacesThen(spaces: string, rest: string)
    requires forall i | 0 <= i < |spaces| :: IsSpace(spaces[i])
    ensures Words(spaces + rest) == Words(rest)
    decreases |spaces|
  {
    if spaces == "" {
      assert spaces + rest == rest;
    } else {
      assert (spaces + rest)[1..] == spaces[1..] + rest;
      SpacesThen(spaces[1..], rest);
    }
  }

  lemma WordThenRest(w: string, spaces: string, rest: string)
    requires IsWord(w) && spaces != "" && forall i | 0 <= i < |spaces| :: IsSpace(spaces[i])
    ensures Words(w + spaces + rest) == [w] + Words(rest)
  {
    assert w + spaces + rest == w + (spaces + rest);
    WordFirst(w, spaces + rest);
    SpacesThen(spaces, rest);
  }

  lemma WordsOfSlice(text: string, i: nat, j: nat, k: nat, end: nat)
    requires i < j < k <= end <= |text| && IsWord(text[i..j])
    requires forall m | j <= m < k :: IsSpace(text[m])
    ensures Words(text[i..end]) == [text[i..j]] + Words(text[k..end])
  {
    assert text[i..end] == text[i..j] + text[j..k] + text[k..end];
    WordThenRest(text[i..j], text[j..k], text[k..end]);
  }

  /** The text the words were matched to consists of just those words. */
  lemma {:induction false} MatchedWords(text: string, i: nat, words: seq<string>)
    requires i <= |text| && MatchWords(text, i, words).Some? && forall k | 0 <= k < |words| :: IsWord(words[k])
    ensures i <= MatchWords(text, i, words).value <= |text|
    ensures Words(text[i..MatchWords(text, i, words).value]) == words
    decreases |words|
  {
    if |words| == 1 {
      assert text[i..i + |words[0]|] == words[0] + "";
      WordFirst(words[0], "");
    } else if |words| > 1 {
      var j := i + |words[0]|;
      var k := SkipSpaces(text, j);
      assert MatchWords(text, i, words) == MatchWords(text, k, words[1..]);
      MatchedWords(text, k, words[1..]);
      WordsOfSlice(text, i, j, k, MatchWords(text, i, words).value);
      assert words == [words[0]] + words[1..];
    }
  }

  lemma {:induction false} SearchMatches(text: string, words: seq<string>, i: nat)
    requires SearchWords(text, words, i).Some?
    ensures var (a, b) := SearchWords(text, words, i).value; i <= a <= |text| && MatchWords(text, a, words) == Some(b)
    decreases |text| - i
  {
    if MatchWords(text, i, words).None? { SearchMatches(text, words, i + 1); }
  }

  /** A located quote is a slice of the text with exactly the words cited, in order and with nothing
      between them but white space. */
  lemma LocatedSlice(text: string, cited: string)
    requires Locate(text, cited).Some?
    ensures var (a, b) := Locate(text, cited).value;
      a <= b <= |text| && Words(text[a..b]) == Words(cited) && (Place(text, cited).Some? ==> text[a..b] == cited)
  {
    PlaceIff(text, cited);
    if Place(text, cited).None? {
      SearchMatches(text, Words(cited), 0);
      WordsAreWords(cited);
      MatchedWords(text, Locate(text, cited).value.0, Words(cited));
    }
  }

  lemma FirstWordOfSlice(text: string, i: nat, b: nat) returns (j: nat, k: nat)
    requires i < b <= |text| && !IsSpace(text[i])
    ensures i < j <= b && k == SkipSpaces(text, j) && j <= k
    ensures if k < b then j < k && Words(text[i..b]) == [text[i..j]] + Words(text[k..b])
            else Words(text[i..b]) == [text[i..j]]
  {
    var s := text[i..b];
    var n := WordEnd(s);
    j := i + n;
    k := SkipSpaces(text, j);
    WordEndStops(s);
    assert s[..n] == text[i..j] && s[n..] == text[j..b];
    if k < b {
      SliceParts(text, j, k, b);
      SpacesThen(text[j..k], text[k..b]);
    } else {
      BlankHasNoWords(text[j..b]);
    }
  }

  /** Words that make up a slice from its first character on are matched there. */
  lemma {:induction false} SliceMatches(text: string, i: nat, b: nat)
    requires i < b <= |text| && !IsSpace(text[i])
    ensures Words(text[i..b]) != [] && MatchWords(text, i, Words(text[i..b])).Some?
    decreases b - i
  {
    var j, k := FirstWordOfSlice(text, i, b);
    var words := Words(text[i..b]);
    assert words[0] == text[i..j] && Occurs(text, words[0], i);
    if k < b {
      SliceMatches(text, k, b);
      assert words[1..] == Words(text[k..b]);
      assert MatchWords(text, i, words) == MatchWords(text, k, words[1..]);
    }
  }

  lemma {:induction false} WordEndStops(s: string)
    ensures WordEnd(s) < |s| ==> IsSpace(s[WordEnd(s)])
    ensures s != "" && !IsSpace(s[0]) ==> WordEnd(s) > 0
  {
    if s != "" && !IsSpace(s[0]) {
      WordEndStops(s[1..]);
    }
  }

  lemma {:induction false} BlankHasNoWords(s: string)
    requires Blank(s)
    ensures Words(s) == []
    decreases |s|
  {
    if s != "" { BlankHasNoWords(s[1..]); }
  }

  lemma {:induction false} SearchFinds(text: string, words: seq<string>, i: nat, at: nat)
    requires i <= at <= |text| && MatchWords(text, at, words).Some?
    ensures SearchWords(text, words, i).Some?
    decreases at - i
  {
    if i < at && MatchWords(text, i, words).None? { SearchFinds(text, words, i + 1, at); }
  }

  lemma SliceParts(text: string, a: nat, i: nat, b: nat)
    requires a <= i <= b <= |text|
    ensures text[a..b] == text[a..i] + text[i..b]
  {
  }

  /** A slice with the words cited is found by the search. */
  lemma SliceLocated(text: string, cited: string, a: nat, b: nat)
    requires a <= b <= |text| && Words(text[a..b]) == Words(cited)
    ensures SearchWords(text, Words(cited), 0).Some?
  {
    var i := SkipSpaces(text, a);
    if i < b {
      SliceParts(text, a, i, b);
      SpacesThen(text[a..i], text[i..b]);
      SliceMatches(text, i, b);
      SearchFinds(text, Words(cited), 0, i);
    } else {
      BlankHasNoWords(text[a..b]);
      SearchFinds(text, Words(cited), 0, 0);
    }
  }

  /** A citation is located exactly when some slice of the segment has its words. */
  lemma LocatedIff(text: string, cited: string)
    ensures Locate(text, cited).Some? <==> exists a, b :: 0 <= a <= b <= |text| && Words(text[a..b]) == Words(cited)
  {
    if Locate(text, cited).Some? {
      LocatedSlice(text, cited);
      var (a, b) := Locate(text, cited).value;
      assert Words(text[a..b]) == Words(cited);
    }
    if a, b :| 0 <= a <= b <= |text| && Words(text[a..b]) == Words(cited) {
      SliceLocated(text, cited, a, b);
    }
  }

  // ------------------------------------------------------------------ line coordinates

  function Newlines(s: string): nat {
    if |s| == 0 then 0 else Newlines(s[..|s| - 1]) + if s[|s| - 1] == '\n' then 1 else 0
  }

  lemma {:induction false} NewlinesGrow(s: string, a: nat, b: nat)
    requires a <= b <= |s|
    ensures Newlines(s[..a]) <= Newlines(s[..b])
    decreases b
  {
    if a < b {
      assert s[..b][..b - 1] == s[..b - 1];
      NewlinesGrow(s, a, b - 1);
    }
  }

  lemma {:induction false} NewlinesConcat(s: string, t: string)
    ensures Newlines(s + t) == Newlines(s) + Newlines(t)
    decreases |t|
  {
    if t == "" {
      assert s + t == s;
    } else {
      assert (s + t)[..|s + t| - 1] == s + t[..|t| - 1];
      NewlinesConcat(s, t[..|t| - 1]);
    }
  }

  lemma {:induction false} NoNewlines(s: string)
    requires '\n' !in s
    ensures Newlines(s) == 0
  {
    if s != "" {
      assert s[|s| - 1] in s;
      NoNewlines(s[..|s| - 1]);
    }
  }

  /** Joined lines have one line feed fewer than lines. */
  lemma {:induction false} JoinedNewlines(texts: seq<string>)
    requires |texts| > 0 && forall i | 0 <= i < |texts| :: '\n' !in texts[i]
    ensures Newlines(Join(texts)) == |texts| - 1
    decreases |texts|
  {
    var n := |texts| - 1;
    NoNewlines(texts[n]);
    if n > 0 {
      JoinedNewlines(texts[..n]);
      NewlinesConcat(Join(texts[..n]) + "\n", texts[n]);
      NewlinesConcat(Join(texts[..n]), "\n");
      assert Newlines("\n") == 1 by { assert "\n"[..0] == ""; }
    }
  }

  function SpanOf(id: string, segment: Segment, a: nat, b: nat): Span
    requires a <= b <= |segment.text|
  {
    Span(id, segment.startLine + Newlines(segment.text[..a]), segment.startLine + Newlines(segment.text[..b]), a, b,
      segment.text[a..b])
  }

  /** The lines of a span lie inside its segment, when the segment is cut from lines. */
  lemma SpanInsideSegment(lines: seq<Line>, k: nat, id: string, segment: Segment, a: nat, b: nat)
    requires Labelled(lines, segment, k) && a <= b <= |segment.text|
    requires forall i | 0 <= i < |lines| :: '\n' !in lines[i].text
    ensures var span := SpanOf(id, segment, a, b);
      segment.startLine <= span.startLine <= span.endLine <= segment.endLine
  {
    var texts := Texts(lines[segment.startLine - 1..segment.endLine]);
    JoinedNewlines(texts);
    NewlinesGrow(segment.text, a, b);
    NewlinesGrow(segment.text, b, |segment.text|);
    assert segment.text[..|segment.text|] == segment.text;
  }

  /** Where the m-th of the joined lines begins. */
  function LineStart(texts: seq<string>, m: nat): nat
    requires m <= |texts|
  {
    if m == 0 then 0 else |Join(texts[..m])| + 1
  }

  /** Counting line feeds before a position of joined lines gives the line that holds the position. */
  lemma {:induction false} LineHolds(texts: seq<string>, a: nat)
    requires |texts| > 0 && (forall i | 0 <= i < |texts| :: '\n' !in texts[i]) && a <= |Join(texts)|
    ensures var m := Newlines(Join(texts)[..a]);
      m < |texts| && LineStart(texts, m) <= a <= LineStart(texts, m) + |texts[m]|
    decreases |texts|
  {
    var n := |texts| - 1;
    if n == 0 {
      OneLine(texts[0], a);
    } else if a <= |Join(texts[..n])| {
      LineHolds(texts[..n], a);
      PrefixOf(Join(texts[..n]), texts[n], a);
      assert texts[..n][..Newlines(Join(texts)[..a])] == texts[..Newlines(Join(texts)[..a])];
    } else {
      LastLine(Join(texts[..n]), texts[n], a);
      JoinedNewlines(texts[..n]);
    }
  }

  /** Each line stands where it begins. */
  lemma {:induction false} LineStands(texts: seq<string>, m: nat)
    requires m < |texts|
    ensures LineStart(texts, m) + |texts[m]| <= |Join(texts)|
    ensures Join(texts)[LineStart(texts, m)..LineStart(texts, m) + |texts[m]|] == texts[m]
    decreases |texts|
  {
    var n := |texts| - 1;
    if m < n {
      LineStands(texts[..n], m);
      assert texts[..n][..m] == texts[..m];
      SliceOf(Join(texts[..n]), texts[n], LineStart(texts, m), LineStart(texts, m) + |texts[m]|);
    } else if n > 0 {
      TailOf(Join(texts[..n]), texts[n]);
    }
  }

  lemma OneLine(line: string, a: nat)
    requires '\n' !in line && a <= |line|
    ensures Newlines(line[..a]) == 0
  {
    assert forall c | c in line[..a] :: c in line;
    NoNewlines(line[..a]);
  }

  lemma PrefixOf(before: string, last: string, a: nat)
    requires a <= |before|
    ensures (before + "\n" + last)[..a] == before[..a]
  {
  }

  lemma SliceOf(before: string, last: string, i: nat, j: nat)
    requires i <= j <= |before|
    ensures (before + "\n" + last)[i..j] == before[i..j]
  {
  }

  lemma TailOf(before: string, last: string)
    ensures (before + "\n" + last)[|before| + 1..|before| + 1 + |last|] == last
  {
  }

  lemma LastLine(before: string, last: string, a: nat)
    requires '\n' !in last && |before| < a <= |before + "\n" + last|
    ensures Newlines((before + "\n" + last)[..a]) == Newlines(before) + 1
  {
    var rest := last[..a - |before| - 1];
    assert (before + "\n" + last)[..a] == before + "\n" + rest;
    assert forall c | c in rest :: c in last;
    CountsApart(before, rest);
  }

  lemma CountsApart(before: string, rest: string)
    requires '\n' !in rest
    ensures Newlines(before + "\n" + rest) == Newlines(before) + 1
  {
    NewlinesConcat(before + "\n", rest);
    NewlinesConcat(before, "\n");
    NoNewlines(rest);
    assert Newlines("\n") == 1 by { assert "\n"[..0] == ""; }
  }

  // ------------------------------------------------------------------ reading claims

  /** The span of one citation. */
  function Resolve(document: seq<Source>, quote: string, c: Citation): Result<Span, Rejection> {
    var segment := Lookup(document, c.segmentId);
    var cited := if c.quote.Some? then c.quote.value else quote;
    if segment.None? then Err(UnknownSegment)
    else if cited == "" || Locate(segment.value.text, cited).None? then Err(QuoteNotPresent)
    else
      var (a, b) := Locate(segment.value.text, cited).value;
      LocatedSlice(segment.value.text, cited);
      Ok(SpanOf(c.segmentId, segment.value, a, b))
  }

  function ResolveAll(document: seq<Source>, quote: string, cs: seq<Citation>): Result<seq<Span>, Rejection> {
    if |cs| == 0 then Ok([])
    else
      var before := ResolveAll(document, quote, cs[..|cs| - 1]);
      if before.Err? then before
      else
        var last := Resolve(document, quote, cs[|cs| - 1]);
        if last.Err? then Err(last.error) else Ok(before.value + [last.value])
  }

  /** The segments that hold a quote exactly, in order. */
  function Holding(document: seq<Source>, quote: string): seq<string> {
    if |document| == 0 then []
    else
      var last := document[|document| - 1];
      Holding(document[..|document| - 1], quote) + if Place(last.segment.text, quote).Some? then [last.id] else []
  }

  /** The citations of an item: its own, or the one segment that holds its quote. */
  function Citations(document: seq<Source>, item: Item): seq<Citation> {
    if item.citations.Some? then item.citations.value
    else if |Holding(document, item.quote)| == 1 then [Citation(Holding(document, item.quote)[0], None)]
    else []
  }

  function Quotes(spans: seq<Span>): seq<string> { seq(|spans|, i requires 0 <= i < |spans| => spans[i].quote) }

  function ReadItem(document: seq<Source>, item: Item): Result<Claim, Rejection> {
    if Blank(item.quote) then Err(NoEvidence)
    else if Citations(document, item) == [] then Err(NoSpans)
    else
      var spans := ResolveAll(document, item.quote, Citations(document, item));
      if spans.Err? then Err(spans.error)
      else if Place(Folded(Join(Quotes(spans.value))), Folded(item.quote)).None? then Err(MainQuoteUnsupported)
      else Ok(Claim(item.quote, spans.value))
  }

  /** A segment is known under an id exactly when some source has it, and is that of the last that does. */
  lemma {:induction false} LookupIsLast(document: seq<Source>, id: string) returns (d: nat)
    ensures Lookup(document, id).None? ==> forall e | 0 <= e < |document| :: document[e].id != id
    ensures Lookup(document, id).Some? ==>
      && d < |document| && document[d].id == id && Lookup(document, id).value == document[d].segment
      && forall e | d < e < |document| :: document[e].id != id
  {
    d := 0;
    if |document| > 0 {
      d := |document| - 1;
      if document[d].id != id { d := LookupIsLast(document[..|document| - 1], id); }
    }
  }

  predicate Holds(source: Source, quote: string) {
    exists i: nat | i <= |source.segment.text| :: Occurs(source.segment.text, quote, i)
  }

  lemma HoldsIff(source: Source, quote: string)
    ensures Place(source.segment.text, quote).Some? <==> Holds(source, quote)
  {
    PlaceIff(source.segment.text, quote);
  }

  lemma {:induction false} NoneHolding(document: seq<Source>, quote: string)
    ensures Holding(document, quote) == [] <==> forall d | 0 <= d < |document| :: !Holds(document[d], quote)
  {
    if |document| > 0 {
      NoneHolding(document[..|document| - 1], quote);
      HoldsIff(document[|document| - 1], quote);
    }
  }

  lemma {:induction false} OneHolding(document: seq<Source>, quote: string, d: nat)
    requires d < |document| && Holds(document[d], quote)
    requires forall e | 0 <= e < |document| && e != d :: !Holds(document[e], quote)
    ensures Holding(document, quote) == [document[d].id]
    decreases |document|
  {
    var n := |document| - 1;
    HoldsIff(document[n], quote);
    if d < n { OneHolding(document[..n], quote, d); } else { NoneHolding(document[..n], quote); }
  }

  lemma {:induction false} SeveralHolding(document: seq<Source>, quote: string, d: nat, e: nat)
    requires d < e < |document| && Holds(document[d], quote) && Holds(document[e], quote)
    ensures |Holding(document, quote)| > 1
    decreases |document|
  {
    var n := |document| - 1;
    HoldsIff(document[n], quote);
    if e < n {
      SeveralHolding(document[..n], quote, d, e);
    } else {
      NoneHolding(document[..n], quote);
      assert document[..n][d] == document[d];
    }
  }

  /** An item without citations cites the one segment that holds its quote word for word, and none when there is none
      or more than one. */
  lemma CitationsAre(document: seq<Source>, item: Item)
    ensures item.citations.Some? ==> Citations(document, item) == item.citations.value
    ensures item.citations.None? && (forall d | 0 <= d < |document| :: !Holds(document[d], item.quote)) ==> Citations(document, item) == []
    ensures item.citations.None? ==> forall d | 0 <= d < |document| && Holds(document[d], item.quote) ::
      Citations(document, item) ==
        if forall e | 0 <= e < |document| && e != d :: !Holds(document[e], item.quote) then [Citation(document[d].id, None)] else []
  {
    NoneHolding(document, item.quote);
    forall d | 0 <= d < |document| && Holds(document[d], item.quote) && item.citations.None?
      ensures Citations(document, item) ==
        if forall e | 0 <= e < |document| && e != d :: !Holds(document[e], item.quote) then [Citation(document[d].id, None)] else []
    {
      if e :| 0 <= e < |document| && e != d && Holds(document[e], item.quote) {
        SeveralHolding(document, item.quote, if d < e then d else e, if d < e then e else d);
      } else {
        OneHolding(document, item.quote, d);
      }
    }
  }

  /** An item is rejected for want of evidence when its quote is blank, and of citations when it cites nothing. */
  lemma RejectedIff(document: seq<Source>, item: Item)
    ensures var r, cs := ReadItem(document, item), Citations(document, item);
      && (r == Err(NoEvidence) <==> forall i | 0 <= i < |item.quote| :: IsSpace(item.quote[i]))
      && (r == Err(NoSpans) <==> !Blank(item.quote) && cs == [])
      && (r == Err(UnknownSegment) || r == Err(QuoteNotPresent) <==>
            !Blank(item.quote) && exists i :: 0 <= i < |cs| && Resolve(document, item.quote, cs[i]).Err?)
  {
    ResolvedIff(document, item.quote, Citations(document, item));
  }

  lemma {:induction false} ResolvedIff(document: seq<Source>, quote: string, cs: seq<Citation>)
    ensures ResolveAll(document, quote, cs).Ok? <==> forall i | 0 <= i < |cs| :: Resolve(document, quote, cs[i]).Ok?
    ensures ResolveAll(document, quote, cs).Err? ==>
      ResolveAll(document, quote, cs).error == UnknownSegment || ResolveAll(document, quote, cs).error == QuoteNotPresent
    decreases |cs|
  {
    if |cs| > 0 { ResolvedIff(document, quote, cs[..|cs| - 1]); }
  }

  /** Otherwise the first citation that does not resolve decides: its segment is unknown, or does not hold what it cites. */
  lemma FirstDecides(document: seq<Source>, item: Item, i: nat)
    requires !Blank(item.quote) && i < |Citations(document, item)|
    requires Resolve(document, item.quote, Citations(document, item)[i]).Err?
    requires forall j | 0 <= j < i :: Resolve(document, item.quote, Citations(document, item)[j]).Ok?
    ensures ReadItem(document, item) ==
      Err(if Lookup(document, Citations(document, item)[i].segmentId).None? then UnknownSegment else QuoteNotPresent)
  {
    var cs := Citations(document, item);
    ResolvedIff(document, item.quote, cs[..i]);
    assert cs[..i + 1][..i] == cs[..i];
    RejectionStays(document, item.quote, cs, i + 1);
  }

  /** An item whose citations all resolve is accepted exactly when its quote, white space folded, is found in what they
      hold, joined by line feeds and folded. */
  lemma SupportedIff(document: seq<Source>, item: Item, spans: seq<Span>, quotes: seq<string>)
    requires !Blank(item.quote) && Citations(document, item) != []
    requires ResolveAll(document, item.quote, Citations(document, item)) == Ok(spans)
    requires |quotes| == |spans| && forall i | 0 <= i < |spans| :: quotes[i] == spans[i].quote
    ensures ReadItem(document, item) == Ok(Claim(item.quote, spans)) || ReadItem(document, item) == Err(MainQuoteUnsupported)
    ensures ReadItem(document, item).Ok? <==> exists i: nat :: Occurs(Folded(Join(quotes)), Folded(item.quote), i)
  {
    assert quotes == Quotes(spans);
    assert ReadItem(document, item) ==
      if Place(Folded(Join(Quotes(spans))), Folded(item.quote)).None? then Err(MainQuoteUnsupported) else Ok(Claim(item.quote, spans));
    assert Folded(Join(Quotes(spans))) == Folded(Join(quotes));
    OccursIff(Folded(Join(quotes)), Folded(item.quote));
    assert Place(Folded(Join(quotes)), Folded(item.quote)).Some? <==> exists i: nat :: Occurs(Folded(Join(quotes)), Folded(item.quote), i);
  }

  lemma OccursIff(text: string, quote: string)
    ensures Place(text, quote).Some? <==> exists i: nat :: Occurs(text, quote, i)
  {
    PlaceIff(text, quote);
  }

  /** One item's claim, its citations resolved one after another. */
  method ParseItem(document: seq<Source>, item: Item) returns (r: Result<Claim, Rejection>)
    ensures r == ReadItem(document, item)
  {
    if Blank(item.quote) {
      return Err(NoEvidence);
    }
    var citations := Citations(document, item);
    if citations == [] {
      return Err(NoSpans);
    }
    var spans: seq<Span> := [];
    for i := 0 to |citations|
      invariant ResolveAll(document, item.quote, citations[..i]) == Ok(spans)
    {
      assert citations[..i + 1][..i] == citations[..i];
      var span := Resolve(document, item.quote, citations[i]);
      if span.Err? {
        RejectionStays(document, item.quote, citations, i + 1);
        return Err(span.error);
      }
      spans := spans + [span.value];
    }
    assert citations[..|citations|] == citations;
    if Place(Folded(Join(Quotes(spans))), Folded(item.quote)).None? {
      return Err(MainQuoteUnsupported);
    }
    return Ok(Claim(item.quote, spans));
  }

  lemma {:induction false} RejectionStays(document: seq<Source>, quote: string, cs: seq<Citation>, n: nat)
    requires n <= |cs| && ResolveAll(document, quote, cs[..n]).Err?
    ensures ResolveAll(document, quote, cs) == ResolveAll(document, quote, cs[..n])
    decreases |cs|
  {
    if n == |cs| {
      assert cs[..n] == cs;
    } else {
      assert cs[..|cs| - 1][..n] == cs[..n];
      RejectionStays(document, quote, cs[..|cs| - 1], n);
    }
  }

  /** A citation resolves exactly when its segment is known and some slice of it has the cited words,
      of which there must be a character. */
  lemma ResolvesIff(document: seq<Source>, quote: string, c: Citation)
    ensures var cited, segment := if c.quote.Some? then c.quote.value else quote, Lookup(document, c.segmentId);
      Resolve(document, quote, c).Ok? <==>
        && segment.Some? && cited != ""
        && exists a, b :: 0 <= a <= b <= |segment.value.text| && Words(segment.value.text[a..b]) == Words(cited)
  {
    var segment := Lookup(document, c.segmentId);
    if segment.Some? {
      LocatedIff(segment.value.text, if c.quote.Some? then c.quote.value else quote);
    }
  }

  // ------------------------------------------------------------------ the second check

  /** What is wrong with a recorded span, judged from the document alone. */
  function Faults(document: seq<Source>, span: Span): seq<Fault> {
    var segment := Lookup(document, span.segmentId);
    if segment.None? then [UnknownSource(span.segmentId)]
    else
      var text := segment.value.text;
      (if span.quote != "" && Place(text, span.quote).None? then [QuoteNotInSegment(span.segmentId)] else [])
      + if span.endChar < span.startChar || Slice(text, span.startChar, span.endChar) != span.quote
        then [InvalidSpan(span.segmentId)] else []
  }

  /** A slice as the source takes it: positions beyond the end stand for the end. */
  function Slice(text: string, a: nat, b: nat): string {
    var end := if b < |text| then b else |text|;
    if a <= end then text[a..end] else ""
  }

  /** The faults of a span: an unknown segment alone, or a quote the segment does not hold and positions whose characters
      are not the quote, each when it applies. */
  lemma FaultsAre(document: seq<Source>, span: Span, fault: Fault)
    ensures fault in Faults(document, span) <==>
      match Lookup(document, span.segmentId)
      case None => fault == UnknownSource(span.segmentId)
      case Some(segment) =>
        || (fault == QuoteNotInSegment(span.segmentId) && span.quote != "" && forall i: nat :: !Occurs(segment.text, span.quote, i))
        || (fault == InvalidSpan(span.segmentId)
            && (span.endChar < span.startChar || Slice(segment.text, span.startChar, span.endChar) != span.quote))
  {
    var segment := Lookup(document, span.segmentId);
    if segment.Some? { PlaceIff(segment.value.text, span.quote); }
  }

  /** A span is faultless exactly when its segment is known and its characters are its quote. */
  lemma FaultlessIff(document: seq<Source>, span: Span)
    ensures Faults(document, span) == [] <==>
      var segment := Lookup(document, span.segmentId);
      segment.Some? && span.startChar <= span.endChar && Slice(segment.value.text, span.startChar, span.endChar) == span.quote
  {
    var segment := Lookup(document, span.segmentId);
    if segment.Some? && span.startChar <= span.endChar && Slice(segment.value.text, span.startChar, span.endChar) == span.quote {
      var text := segment.value.text;
      var end := if span.endChar < |text| then span.endChar else |text|;
      if span.startChar <= end { SliceFound(text, span.startChar, end); }
    }
  }

  function AllFaults(document: seq<Source>, spans: seq<Span>): seq<Fault> {
    if |spans| == 0 then []
    else AllFaults(document, spans[..|spans| - 1]) + Faults(document, spans[|spans| - 1])
  }

  method CheckSpans(document: seq<Source>, spans: seq<Span>) returns (errors: seq<Fault>)
    ensures errors == AllFaults(document, spans)
  {
    errors := [];
    for i := 0 to |spans|
      invariant errors == AllFaults(document, spans[..i])
    {
      assert spans[..i + 1][..i] == spans[..i];
      errors := errors + Faults(document, spans[i]);
    }
    assert spans[..|spans|] == spans;
  }

  method ValidateEvidence(document: seq<Source>, claims: seq<Claim>) returns (errors: seq<Fault>)
    ensures errors == [] <==> forall k | 0 <= k < |claims| :: AllFaults(document, claims[k].spans) == []
  {
    errors := [];
    for k := 0 to |claims|
      invariant errors == [] <==> forall j | 0 <= j < k :: AllFaults(document, claims[j].spans) == []
    {
      var more := CheckSpans(document, claims[k].spans);
      errors := errors + more;
    }
  }

  lemma SliceFound(text: string, a: nat, b: nat)
    requires a <= b <= |text|
    ensures Place(text, text[a..b]).Some? && Slice(text, a, b) == text[a..b]
  {
    PlaceIff(text, text[a..b]);
    assert Occurs(text, text[a..b], a);
  }

  /** A span the reader makes has no fault. */
  lemma ResolvedFaultless(document: seq<Source>, quote: string, c: Citation)
    requires Resolve(document, quote, c).Ok?
    ensures Faults(document, Resolve(document, quote, c).value) == []
  {
    var segment := Lookup(document, c.segmentId).value;
    var cited := if c.quote.Some? then c.quote.value else quote;
    LocatedSlice(segment.text, cited);
    var (a, b) := Locate(segment.text, cited).value;
    SpanFaultless(document, c.segmentId, segment, a, b);
  }

  lemma SpanFaultless(document: seq<Source>, id: string, segment: Segment, a: nat, b: nat)
    requires Lookup(document, id) == Some(segment) && a <= b <= |segment.text|
    ensures Faults(document, SpanOf(id, segment, a, b)) == []
  {
    SliceFound(segment.text, a, b);
  }

  lemma {:induction false} ResolvedAllFaultless(document: seq<Source>, quote: string, cs: seq<Citation>)
    requires ResolveAll(document, quote, cs).Ok?
    ensures AllFaults(document, ResolveAll(document, quote, cs).value) == []
    decreases |cs|
  {
    if |cs| > 0 {
      var spans := ResolveAll(document, quote, cs).value;
      ResolvedAllFaultless(document, quote, cs[..|cs| - 1]);
      ResolvedFaultless(document, quote, cs[|cs| - 1]);
      assert spans[..|spans| - 1] == ResolveAll(document, quote, cs[..|cs| - 1]).value;
    }
  }

  /** Every claim the reader accepts passes the second check, and each of its spans is a slice of
      its segment whose words are the ones cited. */
  lemma AcceptedIsFaultless(document: seq<Source>, item: Item, i: nat)
    requires ReadItem(document, item).Ok? && i < |Citations(document, item)|
    ensures AllFaults(document, ReadItem(document, item).value.spans) == []
    ensures ResolveAll(document, item.quote, Citations(document, item)[..i + 1]).Ok?
    ensures Resolve(document, item.quote, Citations(document, item)[i]).Ok?
    ensures |ReadItem(document, item).value.spans| == |Citations(document, item)|
    ensures ReadItem(document, item).value.spans[i] == Resolve(document, item.quote, Citations(document, item)[i]).value
  {
    ResolvedAllFaultless(document, item.quote, Citations(document, item));
    ResolvedOneByOne(document, item.quote, Citations(document, item), i);
  }

  /** The sources are segments of the document cut from this text. */
  predicate CutFrom(document: seq<Source>, text: string, headings: Headings, out: seq<Segment>) {
    && Segmentation(LinesOf(text, headings), out)
    && forall d | 0 <= d < |document| :: document[d].segment in out
  }

  lemma {:induction false} LookupIsSource(document: seq<Source>, id: string)
    requires Lookup(document, id).Some?
    ensures exists d :: 0 <= d < |document| && document[d].segment == Lookup(document, id).value
    decreases |document|
  {
    var n := |document| - 1;
    if document[n].id != id {
      LookupIsSource(document[..n], id);
      var d :| 0 <= d < n && document[..n][d].segment == Lookup(document[..n], id).value;
      assert document[d].segment == Lookup(document, id).value;
    }
  }

  lemma LinesWithoutFeeds(text: string, headings: Headings)
    ensures forall m | 0 <= m < |LinesOf(text, headings)| :: '\n' !in LinesOf(text, headings)[m].text
  {
    var raw := RawLines(text);
    RawLinesJoin(text);
    forall m | 0 <= m < |raw| ensures '\n' !in Clean(raw[m]) { CleanKeeps(raw[m], '\n'); }
  }

  /** Every claim accepted over a document's segments cites, citation by citation, a segment of the
      document, lines inside that segment, and characters of it that are the recorded quote. */
  lemma AcceptedInsideDocument(text: string, headings: Headings, out: seq<Segment>, document: seq<Source>, item: Item, i: nat)
    requires CutFrom(document, text, headings, out)
    requires ReadItem(document, item).Ok? && i < |Citations(document, item)|
    ensures i < |ReadItem(document, item).value.spans|
    ensures var span := ReadItem(document, item).value.spans[i];
      && Lookup(document, span.segmentId).Some?
      && var s := Lookup(document, span.segmentId).value;
        && s in out && s.startLine <= span.startLine <= span.endLine <= s.endLine
        && span.startChar <= span.endChar <= |s.text| && s.text[span.startChar..span.endChar] == span.quote
  {
    AcceptedIsFaultless(document, item, i);
    var c, lines := Citations(document, item)[i], LinesOf(text, headings);
    var segment := Lookup(document, c.segmentId).value;
    var cited := if c.quote.Some? then c.quote.value else item.quote;
    LocatedSlice(segment.text, cited);
    var (a, b) := Locate(segment.text, cited).value;
    LookupIsSource(document, c.segmentId);
    var k :| 0 <= k < |out| && out[k] == segment;
    LinesWithoutFeeds(text, headings);
    assert Labelled(lines, segment, k);
    SpanInsideSegment(lines, k, c.segmentId, segment, a, b);
  }

  /** A position of a segment's text lies on the line of the document with this number: the segment's text runs from
      its first line, and this line's own characters, or its end, are at the position. */
  ghost predicate OnLine(lines: seq<Line>, s: Segment, line: nat, position: nat) {
    && 1 <= s.startLine <= line <= s.endLine <= |lines|
    && var start := LineStart(Texts(lines[s.startLine - 1..s.endLine]), line - s.startLine);
      && start <= position <= start + |lines[line - 1].text| <= |s.text|
      && s.text[start..start + |lines[line - 1].text|] == lines[line - 1].text
  }

  lemma LineIsOn(lines: seq<Line>, s: Segment, k: nat, a: nat)
    requires Labelled(lines, s, k) && a <= |s.text| && forall i | 0 <= i < |lines| :: '\n' !in lines[i].text
    ensures OnLine(lines, s, s.startLine + Newlines(s.text[..a]), a)
  {
    LineHolds(Texts(lines[s.startLine - 1..s.endLine]), a);
    LineStands(Texts(lines[s.startLine - 1..s.endLine]), Newlines(s.text[..a]));
  }

  /** Its first and its last position lie on the lines of the document that it records. */
  lemma AcceptedOnLines(text: string, headings: Headings, out: seq<Segment>, document: seq<Source>, item: Item, i: nat, last: bool)
    requires CutFrom(document, text, headings, out)
    requires ReadItem(document, item).Ok? && i < |Citations(document, item)|
    ensures i < |ReadItem(document, item).value.spans|
    ensures var span := ReadItem(document, item).value.spans[i];
      && Lookup(document, span.segmentId).Some?
      && OnLine(LinesOf(text, headings), Lookup(document, span.segmentId).value,
                if last then span.endLine else span.startLine, if last then span.endChar else span.startChar)
  {
    AcceptedIsFaultless(document, item, i);
    var c := Citations(document, item)[i];
    var segment := Lookup(document, c.segmentId).value;
    LookupIsSource(document, c.segmentId);
    var k :| 0 <= k < |out| && out[k] == segment;
    LinesWithoutFeeds(text, headings);
    assert Labelled(LinesOf(text, headings), segment, k);
    var a, b := ResolvedAt(document, item.quote, c);
    PositionOnLine(LinesOf(text, headings), segment, k, c.segmentId, a, b, last);
  }

  lemma PositionOnLine(lines: seq<Line>, segment: Segment, k: nat, id: string, a: nat, b: nat, last: bool)
    requires Labelled(lines, segment, k) && a <= b <= |segment.text| && forall i | 0 <= i < |lines| :: '\n' !in lines[i].text
    ensures var span := SpanOf(id, segment, a, b);
      OnLine(lines, segment, if last then span.endLine else span.startLine, if last then span.endChar else span.startChar)
  {
    LineIsOn(lines, segment, k, if last then b else a);
  }

  lemma ResolvedAt(document: seq<Source>, quote: string, c: Citation) returns (a: nat, b: nat)
    requires Resolve(document, quote, c).Ok?
    ensures var segment := Lookup(document, c.segmentId);
      segment.Some? && a <= b <= |segment.value.text| && Resolve(document, quote, c).value == SpanOf(c.segmentId, segment.value, a, b)
  {
    var segment := Lookup(document, c.segmentId).value;
    var cited := if c.quote.Some? then c.quote.value else quote;
    LocatedSlice(segment.text, cited);
    a, b := Locate(segment.text, cited).value.0, Locate(segment.text, cited).value.1;
  }

  lemma {:induction false} ResolvedOneByOne(document: seq<Source>, quote: string, cs: seq<Citation>, i: nat)
    requires ResolveAll(document, quote, cs).Ok? && i < |cs|
    ensures ResolveAll(document, quote, cs[..i + 1]).Ok?
    ensures Resolve(document, quote, cs[i]).Ok?
    ensures |ResolveAll(document, quote, cs).value| == |cs|
    ensures ResolveAll(document, quote, cs).value[i] == Resolve(document, quote, cs[i]).value
    decreases |cs|
  {
    var n := |cs| - 1;
    if i < n {
      ResolvedOneByOne(document, quote, cs[..n], i);
      assert cs[..n][..i + 1] == cs[..i + 1];
    } else {
      assert cs[..i + 1] == cs;
      if n > 0 { ResolvedOneByOne(document, quote, cs[..n], 0); }
    }
  }
}
