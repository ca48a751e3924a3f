/** Cutting a document into segments: runs of lines between blank lines, headings and form feeds. */
module Segments {
  import opened Outcomes
  import opened Sequences

  // ------------------------------------------------------------------ lines

  const FORM_FEED := '\U{0C}'
  const VERTICAL_TAB := '\U{0B}'

  predicate IsSpace(c: char) {
    c == ' ' || c == '\t' || c == '\n' || c == '\r' || c == FORM_FEED || c == VERTICAL_TAB
  }

  /** White space is the six characters with the codes 9 to 13 and 32. */
  lemma SpaceCodes(c: char)
    ensures IsSpace(c) <==> 9 <= c as int <= 13 || c as int == 32
  {
  }

  predicate Blank(text: string) { forall i | 0 <= i < |text| :: IsSpace(text[i]) }

  function Feeds(raw: string): nat {
    if raw == "" then 0 else (if raw[0] == FORM_FEED then 1 else 0) + Feeds(raw[1..])
  }

  function Clean(raw: string): string {
    if raw == "" then "" else (if raw[0] == FORM_FEED then "" else [raw[0]]) + Clean(raw[1..])
  }

  /** The heading expression: the section a line opens, if it is a heading. */
  type Headings = string -> Option<string>

  /** What the cutter needs to know of a raw line. */
  datatype Line = Line(text: string, feeds: nat, blank: bool, heading: Option<string>)

  function Scan(raw: string, headings: Headings): Line {
    Line(Clean(raw), Feeds(raw), Blank(Clean(raw)), headings(Clean(raw)))
  }

  function Scanned(raw: seq<string>, headings: Headings): seq<Line> {
    seq(|raw|, i requires 0 <= i < |raw| => Scan(raw[i], headings))
  }

  /** A text cut at its line feeds. */
  function RawLines(text: string): seq<string> {
    if text == "" then [""]
    else if text[0] == '\n' then [""] + RawLines(text[1..])
    else
      var rest := RawLines(text[1..]);
      [[text[0]] + if rest == [] then "" else rest[0]] + if rest == [] then [] else rest[1..]
  }

  /** The lines of a document as the cutter sees them. */
  function LinesOf(text: string, headings: Headings): seq<Line> { Scanned(RawLines(text), headings) }

  lemma {:induction false} JoinFront(first: string, rest: seq<string>)
    ensures Join([first] + rest) == if rest == [] then first else first + "\n" + Join(rest)
    decreases |rest|
  {
    var all, n := [first] + rest, |rest|;
    assert Join([first]) == first;
    if n > 0 {
      assert all[..n] == [first] + rest[..n - 1] && all[n] == rest[n - 1];
      JoinFront(first, rest[..n - 1]);
      assert Join(all) == Join(all[..n]) + "\n" + rest[n - 1];
      if n == 1 { assert rest == [rest[0]]; }
    } else {
      assert all == [first];
    }
  }

  /** A character put before the first line. */
  lemma JoinPrefixed(c: char, lines: seq<string>)
    requires lines != []
    ensures Join([[c] + lines[0]] + lines[1..]) == [c] + Join(lines)
  {
    assert lines == [lines[0]] + lines[1..];
    JoinFront(lines[0], lines[1..]);
    JoinFront([c] + lines[0], lines[1..]);
  }

  /** No line holds a line feed, and the lines with line feeds between them are the text. */
  lemma {:induction false} RawLinesJoin(text: string)
    ensures RawLines(text) != [] && Join(RawLines(text)) == text
    ensures forall i | 0 <= i < |RawLines(text)| :: '\n' !in RawLines(text)[i]
    decreases |text|
  {
    if text != "" {
      var rest := RawLines(text[1..]);
      RawLinesJoin(text[1..]);
      assert text == [text[0]] + text[1..];
      if text[0] == '\n' {
        JoinFront("", rest);
      } else {
        JoinPrefixed(text[0], rest);
      }
    }
  }

  /** A cleaned line is the line without its form feeds, and the rest are counted. */
  lemma {:induction false} CleanCounts(raw: string)
    ensures FORM_FEED !in Clean(raw) && |Clean(raw)| + Feeds(raw) == |raw|
    ensures Feeds(raw) == multiset(raw)[FORM_FEED]
    ensures forall c | c != FORM_FEED :: multiset(Clean(raw))[c] == multiset(raw)[c]
  {
    if raw != "" {
      CleanCounts(raw[1..]);
      assert raw == [raw[0]] + raw[1..];
      assert multiset(raw) == multiset{raw[0]} + multiset(raw[1..]);
      if raw[0] != FORM_FEED {
        assert multiset(Clean(raw)) == multiset{raw[0]} + multiset(Clean(raw[1..]));
      }
    }
  }

  lemma CleanKeeps(raw: string, c: char)
    requires c != FORM_FEED && c !in raw
    ensures c !in Clean(raw)
  {
    CleanCounts(raw);
    assert c !in multiset(raw) && c !in multiset(Clean(raw));
  }

  lemma {:induction false} JoinAdds(texts: seq<string>, c: char)
    requires c != '\n' && forall i | 0 <= i < |texts| :: c !in texts[i]
    ensures c !in Join(texts)
  {
    if |texts| > 1 { JoinAdds(texts[..|texts| - 1], c); }
  }

  function Texts(lines: seq<Line>): seq<string> {
    seq(|lines|, i requires 0 <= i < |lines| => lines[i].text)
  }

  // ------------------------------------------------------------------ where segments are

  /** A segment with its line coordinates, counted from one. */
  datatype Segment = Segment(section: string, ordinal: nat, text: string, startLine: nat, endLine: nat, page: nat)

  /** Line m begins a segment: it is not blank, and what comes before is not part of the same run. */
  predicate Break(lines: seq<Line>, m: nat)
    requires m < |lines|
  {
    !lines[m].blank && (m == 0 || lines[m - 1].blank || lines[m].feeds > 0 || lines[m].heading.Some?)
  }

  /** The section in force after the first n lines. */
  function SectionAfter(lines: seq<Line>, n: nat): string
    requires n <= |lines|
  {
    if n == 0 then "0"
    else if lines[n - 1].heading.Some? then lines[n - 1].heading.value
    else SectionAfter(lines, n - 1)
  }

  function PageAfter(lines: seq<Line>, n: nat): nat
    requires n <= |lines|
  {
    if n == 0 then 1 else PageAfter(lines, n - 1) + lines[n - 1].feeds
  }

  /** Lines a..b, counted from zero and b excluded, are one run: a begins it, none is blank, and none
      begins another. */
  predicate Run(lines: seq<Line>, a: nat, b: nat) {
    && a < b <= |lines| && Break(lines, a)
    && forall m {:trigger Break(lines, m)} | a < m < b :: !lines[m].blank && !Break(lines, m)
  }

  /** The run cannot be longer. */
  predicate Maximal(lines: seq<Line>, b: nat)
    requires b <= |lines|
  {
    b == |lines| || lines[b].blank || Break(lines, b)
  }

  predicate IsRun(lines: seq<Line>, s: Segment, n: nat) {
    0 < s.startLine <= s.endLine <= n && Run(lines, s.startLine - 1, s.endLine)
  }

  predicate Holds(s: Segment, m: nat) { s.startLine <= m + 1 <= s.endLine }

  predicate Held(out: seq<Segment>, m: nat) { exists k :: 0 <= k < |out| && Holds(out[k], m) }

  predicate AllRuns(lines: seq<Line>, out: seq<Segment>, n: nat) { forall k | 0 <= k < |out| :: IsRun(lines, out[k], n) }

  predicate Apart(out: seq<Segment>) { forall k, l | 0 <= k < l < |out| :: out[k].endLine < out[l].startLine }

  predicate AllHeld(lines: seq<Line>, out: seq<Segment>, n: nat)
    requires n <= |lines|
  {
    forall m {:trigger Held(out, m)} | 0 <= m < n && !lines[m].blank :: Held(out, m)
  }

  /** Runs in order and apart, holding every line of the first n that is not blank. */
  predicate Partition(lines: seq<Line>, out: seq<Segment>, n: nat)
    requires n <= |lines|
  {
    AllRuns(lines, out, n) && Apart(out) && AllHeld(lines, out, n)
  }

  /** A segment says of its lines what they are: their text, section and page, and its own place. */
  predicate Labelled(lines: seq<Line>, s: Segment, k: nat) {
    && 0 < s.startLine <= s.endLine <= |lines|
    && s.text == Join(Texts(lines[s.startLine - 1..s.endLine]))
    && s.section == SectionAfter(lines, s.startLine) && s.page == PageAfter(lines, s.startLine)
    && s.ordinal == k
  }

  predicate AllLabelled(lines: seq<Line>, out: seq<Segment>) {
    forall k | 0 <= k < |out| :: Labelled(lines, out[k], k)
  }

  predicate AllMaximal(lines: seq<Line>, out: seq<Segment>) {
    forall k | 0 <= k < |out| :: out[k].endLine <= |lines| && Maximal(lines, out[k].endLine)
  }

  /** The segmentation of a document given by its lines. */
  predicate Segmentation(lines: seq<Line>, out: seq<Segment>) {
    Partition(lines, out, |lines|) && AllLabelled(lines, out) && AllMaximal(lines, out)
  }

  lemma HeldStill(out: seq<Segment>, s: Segment, m: nat)
    requires Held(out, m) || Holds(s, m)
    ensures Held(out + [s], m)
  {
    var more := out + [s];
    if Held(out, m) {
      var k :| 0 <= k < |out| && Holds(out[k], m);
      assert Holds(more[k], m);
    } else {
      assert Holds(more[|out|], m);
    }
  }

  lemma RunAdded(lines: seq<Line>, out: seq<Segment>, s: Segment)
    requires s.endLine <= |lines| && IsRun(lines, s, s.endLine) && Partition(lines, out, s.startLine - 1)
    ensures Partition(lines, out + [s], s.endLine)
  {
    var more := out + [s];
    forall k | 0 <= k < |more| ensures IsRun(lines, more[k], s.endLine) {
      if k < |out| { assert IsRun(lines, out[k], s.startLine - 1); }
    }
    forall k, l | 0 <= k < l < |more| ensures more[k].endLine < more[l].startLine {
      assert IsRun(lines, out[k], s.startLine - 1);
    }
    forall m | 0 <= m < s.endLine && !lines[m].blank ensures Held(more, m) {
      HeldStill(out, s, m);
    }
  }

  lemma BlankAdded(lines: seq<Line>, out: seq<Segment>, n: nat)
    requires n < |lines| && lines[n].blank && Partition(lines, out, n)
    ensures Partition(lines, out, n + 1)
  {
  }

  lemma RunGoesOn(lines: seq<Line>, a: nat, b: nat)
    requires Run(lines, a, b)
    ensures !lines[b - 1].blank
    ensures b < |lines| && !lines[b].blank && !Break(lines, b) ==> Run(lines, a, b + 1)
  {
    assert b - 1 > a ==> !Break(lines, b - 1);
    if b < |lines| && !lines[b].blank && !Break(lines, b) {
      forall m | a < m < b + 1 ensures !lines[m].blank && !Break(lines, m) {
        assert !Break(lines, m);
      }
    }
  }

  // ------------------------------------------------------------------ the cutter

  class Cutter {
    const lines: seq<Line>
    var section: string
    var page: nat
    var start: nat
    var startPage: nat
    var buf: seq<string>
    var out: seq<Segment>

    constructor (lines: seq<Line>)
      ensures this.lines == lines && After(0)
    {
      this.lines := lines;
      section, page, start, startPage, buf, out := "0", 1, 0, 1, [], [];
    }

    /** The finished segments are whole, labelled runs. */
    ghost predicate Finished()
      reads this
    {
      AllLabelled(lines, out) && AllMaximal(lines, out)
    }

    /** The buffer holds the run that reaches line n, and the segments all before it. */
    ghost predicate Pending(n: nat)
      requires n <= |lines|
      reads this
    {
      if buf == [] then Partition(lines, out, n)
      else
        && Run(lines, start, n) && Partition(lines, out, start)
        && buf == Texts(lines[start..n])
        && section == SectionAfter(lines, start + 1) && startPage == PageAfter(lines, start + 1)
    }

    /** What holds after the first n lines. */
    ghost predicate After(n: nat)
      reads this
    {
      && n <= |lines| && Finished() && Pending(n)
      && section == SectionAfter(lines, n) && page == PageAfter(lines, n)
      && (buf == [] && n > 0 ==> lines[n - 1].blank)
    }

    /** Ends the run in the buffer, if there is one, before line n. */
    method Flush(n: nat)
      requires n <= |lines| && Finished() && Pending(n) && (buf != [] ==> Maximal(lines, n))
      modifies this`buf, this`out
      ensures Finished() && buf == [] && Partition(lines, out, n)
    {
      if buf == [] {
        return;
      }
      var s := Segment(section, |out|, Join(buf), start + 1, n, startPage);
      assert Labelled(lines, s, |out|);
      RunAdded(lines, out, s);
      out := out + [s];
      buf := [];
    }

    /** One line of the document: a form feed, a heading or a blank line ends the run before it. */
    method TakeLine(n: nat)
      requires n < |lines| && After(n)
      modifies this
      ensures After(n + 1)
    {
      var line := lines[n];
      if buf != [] { RunGoesOn(lines, start, n); }
      if line.feeds > 0 {
        Flush(n);
        page := page + line.feeds;
      }
      if line.heading.Some? {
        Flush(n);
        section := line.heading.value;
      }
      if line.blank {
        Flush(n);
        BlankAdded(lines, out, n);
      } else {
        Grow(n);
      }
    }

    /** A line that is not blank joins the run in the buffer, or begins one. */
    method Grow(n: nat)
      requires n < |lines| && !lines[n].blank && Finished() && Pending(n)
      requires Break(lines, n) <==> buf == []
      requires section == SectionAfter(lines, n + 1) && page == PageAfter(lines, n + 1)
      modifies this`start, this`startPage, this`buf
      ensures After(n + 1)
    {
      if buf == [] {
        start, startPage := n, page;
      } else {
        RunGoesOn(lines, start, n);
      }
      assert Texts(lines[start..n + 1]) == Texts(lines[start..n]) + [lines[n].text];
      buf := buf + [lines[n].text];
    }
  }

  method CutLines(lines: seq<Line>) returns (out: seq<Segment>)
    ensures Segmentation(lines, out)
  {
    var cutter := new Cutter(lines);
    for n := 0 to |lines|
      invariant cutter.lines == lines && cutter.After(n)
    {
      cutter.TakeLine(n);
    }
    cutter.Flush(|lines|);
    out := cutter.out;
  }

  /** A document's segments hold its lines that are not blank, once each and in order; each is a run
      that could not be longer, with exactly its lines' section, page and text, form feeds removed. */
  method CutDocument(text: string, headings: Headings) returns (out: seq<Segment>)
    ensures Segmentation(LinesOf(text, headings), out)
    ensures forall m | 0 <= m < |RawLines(text)| :: Held(out, m) <==> !Blank(Clean(RawLines(text)[m]))
    ensures forall k | 0 <= k < |out| :: FORM_FEED !in out[k].text
  {
    var lines := LinesOf(text, headings);
    out := CutLines(lines);
    HeldAreNotBlank(lines, out);
    SegmentsClean(text, headings, out);
  }

  /** The lines segments hold are exactly those that are not blank. */
  lemma HeldAreNotBlank(lines: seq<Line>, out: seq<Segment>)
    requires Partition(lines, out, |lines|)
    ensures forall m | 0 <= m < |lines| :: Held(out, m) <==> !lines[m].blank
  {
    forall m | 0 <= m < |lines| && Held(out, m) ensures !lines[m].blank {
      var k :| 0 <= k < |out| && Holds(out[k], m);
      assert IsRun(lines, out[k], |lines|);
      var _ := Break(lines, m);
    }
  }

  lemma LinesClean(text: string, headings: Headings)
    ensures forall m | 0 <= m < |LinesOf(text, headings)| :: FORM_FEED !in LinesOf(text, headings)[m].text
  {
    var raw := RawLines(text);
    forall m | 0 <= m < |raw| ensures FORM_FEED !in Clean(raw[m]) { CleanCounts(raw[m]); }
  }

  lemma LabelledClean(lines: seq<Line>, s: Segment, k: nat)
    requires Labelled(lines, s, k) && forall m | 0 <= m < |lines| :: FORM_FEED !in lines[m].text
    ensures FORM_FEED !in s.text
  {
    JoinAdds(Texts(lines[s.startLine - 1..s.endLine]), FORM_FEED);
  }

  lemma SegmentsClean(text: string, headings: Headings, out: seq<Segment>)
    requires AllLabelled(LinesOf(text, headings), out)
    ensures forall k | 0 <= k < |out| :: FORM_FEED !in out[k].text
  {
    LinesClean(text, headings);
    forall k | 0 <= k < |out| ensures FORM_FEED !in out[k].text {
      LabelledClean(LinesOf(text, headings), out[k], k);
    }
  }

  /** A document has only one segmentation. */
  lemma SegmentationUnique(lines: seq<Line>, xs: seq<Segment>, ys: seq<Segment>)
    requires Segmentation(lines, xs) && Segmentation(lines, ys)
    ensures xs == ys
  {
    SegmentsAgree(lines, xs, ys, |xs|);
    SegmentsAgree(lines, ys, xs, |ys|);
  }

  /** The first k segments of one are those of the other. */
  lemma {:induction false} SegmentsAgree(lines: seq<Line>, xs: seq<Segment>, ys: seq<Segment>, k: nat)
    requires Segmentation(lines, xs) && Segmentation(lines, ys) && k <= |xs|
    ensures k <= |ys| && forall i | 0 <= i < k :: xs[i] == ys[i]
  {
    if k > 0 {
      SegmentsAgree(lines, xs, ys, k - 1);
      NextAgrees(lines, xs, ys, k - 1);
    }
  }

  lemma NextAgrees(lines: seq<Line>, xs: seq<Segment>, ys: seq<Segment>, n: nat)
    requires Segmentation(lines, xs) && Segmentation(lines, ys)
    requires n < |xs| && n <= |ys| && forall i | 0 <= i < n :: xs[i] == ys[i]
    ensures n < |ys| && xs[n] == ys[n]
  {
    var j := Counterpart(lines, xs, ys, n);
    var i := Counterpart(lines, ys, xs, n);
  }

  predicate SameLines(s: Segment, t: Segment) {
    s.startLine == t.startLine <= s.endLine == t.endLine
  }

  /** The other segmentation has the same run. */
  lemma Counterpart(lines: seq<Line>, xs: seq<Segment>, ys: seq<Segment>, k: nat) returns (j: nat)
    requires Segmentation(lines, xs) && Segmentation(lines, ys) && k < |xs|
    ensures j < |ys| && SameLines(xs[k], ys[j])
  {
    var m := xs[k].startLine - 1;
    assert IsRun(lines, xs[k], |lines|) && Break(lines, m);
    assert Held(ys, m);
    j :| 0 <= j < |ys| && Holds(ys[j], m);
    assert IsRun(lines, ys[j], |lines|);
    SameRun(lines, xs[k], ys[j]);
  }

  /** Runs that share the first one's first line and cannot be longer are the same lines. */
  lemma SameRun(lines: seq<Line>, s: Segment, t: Segment)
    requires IsRun(lines, s, |lines|) && IsRun(lines, t, |lines|) && Holds(t, s.startLine - 1)
    requires Maximal(lines, s.endLine) && Maximal(lines, t.endLine)
    ensures SameLines(s, t)
  {
    assert Break(lines, s.startLine - 1);
    if s.endLine < |lines| { var _ := Break(lines, s.endLine); }
    if t.endLine < |lines| { var _ := Break(lines, t.endLine); }
  }
}
