/** Event streams as the provider client reads them: line endings, fields and data payloads, after
    section 9.2.6 of the WHATWG HTML standard. */
module EventStream {
  import opened Outcomes
  import opened Sequences

  // ------------------------------------------------------------------ lines

  /** Every pair CR LF becomes one LF. */
  function JoinPairs(s: string): string {
    if |s| < 2 then s
    else if s[0] == '\r' && s[1] == '\n' then ['\n'] + JoinPairs(s[2..])
    else [s[0]] + JoinPairs(s[1..])
  }

  /** Every CR left becomes an LF. */
  function LoneReturns(s: string): string {
    seq(|s|, i requires 0 <= i < |s| => if s[i] == '\r' then '\n' else s[i])
  }

  function Unified(s: string): string { LoneReturns(JoinPairs(s)) }

  /** The pieces between line feeds; the last one is what no line feed follows. */
  function Pieces(s: string): seq<string> {
    if s == "" then [""]
    else
      var rest := Pieces(s[1..]);
      if s[0] == '\n' then [""] + rest else [[s[0]] + rest[0]] + rest[1..]
  }

  datatype Ending = Lf | CrLf | Cr

  function Mark(e: Ending): string {
    match e
    case Lf => "\n"
    case CrLf => "\r\n"
    case Cr => "\r"
  }

  datatype Line = Line(text: string, ending: Ending)

  predicate OneLine(text: string) { '\r' !in text && '\n' !in text }

  predicate OneLines(lines: seq<Line>) { forall i | 0 <= i < |lines| :: OneLine(lines[i].text) }

  function Written(lines: seq<Line>): string {
    if lines == [] then "" else lines[0].text + Mark(lines[0].ending) + Written(lines[1..])
  }

  /** No CR that ends a line is followed by the LF that ends an empty one. */
  predicate Unambiguous(lines: seq<Line>) {
    forall i | 0 <= i < |lines| - 1 :: !(lines[i].ending == Cr && lines[i + 1] == Line("", Lf))
  }

  function Texts(lines: seq<Line>): seq<string> {
    seq(|lines|, i requires 0 <= i < |lines| => lines[i].text)
  }

  function Swallow(e: Ending, rest: string): string {
    if e == Cr && rest != "" && rest[0] == '\n' then rest[1..] else rest
  }

  /** How an end of line reads when `rest` follows: a CR takes a following LF with it. */
  lemma EndReads(e: Ending, rest: string)
    ensures Unified(Mark(e) + rest) == "\n" + Unified(Swallow(e, rest))
  {
    var s, after := Mark(e) + rest, Swallow(e, rest);
    if |s| - |after| == 2 {
      assert s[2..] == after;
      assert JoinPairs(s) == ['\n'] + JoinPairs(after);
      LoneConcat('\n', JoinPairs(after));
    } else {
      LoneConcat(s[0], JoinPairs(rest));
    }
  }

  lemma {:induction false} TextReads(text: string, s: string)
    requires OneLine(text)
    ensures Unified(text + s) == text + Unified(s)
    decreases |text|
  {
    if text == "" {
      assert text + s == s;
    } else {
      var c, after := text[0], text[1..] + s;
      assert text + s == [c] + after;
      assert c in text;
      LoneConcat(c, JoinPairs(after));
      TextReads(text[1..], s);
    }
  }

  lemma LoneConcat(c: char, rest: string)
    ensures LoneReturns([c] + rest) == [if c == '\r' then '\n' else c] + LoneReturns(rest)
  {
  }

  lemma {:induction false} PieceReads(text: string, rest: string)
    requires OneLine(text)
    ensures Pieces(text + ("\n" + rest)) == [text] + Pieces(rest)
    decreases |text|
  {
    var s := text + ("\n" + rest);
    if text == "" {
      assert s[1..] == rest;
    } else {
      assert s[1..] == text[1..] + ("\n" + rest);
      PieceReads(text[1..], rest);
      var p := Pieces(s[1..]);
      assert p[0] == text[1..] && p[1..] == Pieces(rest);
      assert text[0] in text && text == [text[0]] + text[1..];
    }
  }

  function Decoded(lines: seq<Line>): seq<string> { Pieces(Unified(Written(lines))) }

  predicate Clash(lines: seq<Line>) {
    |lines| > 1 && lines[0].ending == Cr && lines[1] == Line("", Lf)
  }

  lemma LineReads(text: string, e: Ending, rest: string)
    requires OneLine(text)
    ensures Pieces(Unified(text + Mark(e) + rest)) == [text] + Pieces(Unified(Swallow(e, rest)))
  {
    assert text + Mark(e) + rest == text + (Mark(e) + rest);
    TextReads(text, Mark(e) + rest);
    EndReads(e, rest);
    PieceReads(text, Unified(Swallow(e, rest)));
  }

  lemma FirstDecoded(lines: seq<Line>)
    requires OneLines(lines) && lines != []
    ensures Decoded(lines) == [lines[0].text] + Decoded(if Clash(lines) then lines[2..] else lines[1..])
  {
    LineReads(lines[0].text, lines[0].ending, Written(lines[1..]));
    if Clash(lines) { assert lines[1..][1..] == lines[2..]; }
  }

  lemma {:induction false} NoLineAdded(lines: seq<Line>)
    requires OneLines(lines)
    ensures |Decoded(lines)| <= |lines| + 1
    ensures |Decoded(lines)| == |lines| + 1 ==> Unambiguous(lines)
    decreases |lines|
  {
    if lines == [] {
      assert Written(lines) == "";
    } else {
      FirstDecoded(lines);
      if Clash(lines) {
        NoLineAdded(lines[2..]);
      } else {
        NoLineAdded(lines[1..]);
      }
    }
  }

  lemma {:induction false} LinesReadBack(lines: seq<Line>)
    requires OneLines(lines) && Unambiguous(lines)
    ensures Decoded(lines) == Texts(lines) + [""]
    decreases |lines|
  {
    if lines == [] {
      assert Written(lines) == "";
    } else {
      FirstDecoded(lines);
      LinesReadBack(lines[1..]);
      assert Texts(lines) == [lines[0].text] + Texts(lines[1..]);
      assert Decoded(lines) == [lines[0].text] + (Texts(lines[1..]) + [""]);
    }
  }

  /** The lines come back exactly when no CR meets an LF across two ends of line; otherwise some are
      lost. One ending used throughout is always safe. */
  lemma LinesReadBackIff(lines: seq<Line>)
    requires OneLines(lines)
    ensures Decoded(lines) == Texts(lines) + [""] <==> Unambiguous(lines)
  {
    NoLineAdded(lines);
    if Unambiguous(lines) { LinesReadBack(lines); }
  }

  // ------------------------------------------------------------------ fields and events

  datatype StreamError = InvalidField | IncompleteEvent

  /** What the generator yields before it ends, and how it ends. */
  datatype Yield = Yield(events: seq<string>, failure: Option<StreamError>)

  function Colon(line: string): nat { if line == "" || line[0] == ':' then 0 else 1 + Colon(line[1..]) }

  lemma {:induction false} ColonFirst(line: string)
    ensures Colon(line) <= |line| && ':' !in line[..Colon(line)]
    ensures Colon(line) < |line| ==> line[Colon(line)] == ':'
  {
    if line != "" && line[0] != ':' {
      ColonFirst(line[1..]);
      assert line[..Colon(line)] == [line[0]] + line[1..][..Colon(line[1..])];
    }
  }

  function FieldName(line: string): string {
    ColonFirst(line);
    line[..Colon(line)]
  }

  /** What follows the colon, without one leading space; nothing when there is no colon. */
  function FieldValue(line: string): string {
    ColonFirst(line);
    var value := if Colon(line) == |line| then "" else line[Colon(line) + 1..];
    if value != "" && value[0] == ' ' then value[1..] else value
  }

  /** A line's field is what stands before its first colon; its value is what follows, without one leading space, and empty
      when there is no colon. */
  lemma FieldSays(name: string, value: string)
    requires ':' !in name
    ensures FieldName(name) == name && FieldValue(name) == ""
    ensures FieldName(name + ":" + value) == name
    ensures FieldValue(name + ":" + value) == if value != "" && value[0] == ' ' then value[1..] else value
  {
    var line := name + ":" + value;
    ColonFirst(name);
    ColonFirst(line);
    assert line[|name|] == ':' && line[..|name|] == name && line[|name| + 1..] == value;
  }

  /** What reading the remaining lines yields when `data` is already collected for an event; the
      last line is the part of the stream no line feed follows. */
  function Events(lines: seq<string>, data: seq<string>): Yield
    requires |lines| > 0
    decreases |lines|
  {
    var line := lines[0];
    if |lines| == 1 then Yield([], if data != [] || line != "" then Some(IncompleteEvent) else None)
    else if line == "" then
      var rest := Events(lines[1..], []);
      if data == [] then rest else Yield([Join(data)] + rest.events, rest.failure)
    else if line[0] == ':' then Events(lines[1..], data)
    else if FieldName(line) == "data" then Events(lines[1..], data + [FieldValue(line)])
    else if FieldName(line) !in {"event", "id", "retry"} then Yield([], Some(InvalidField))
    else Events(lines[1..], data)
  }

  /** The generator, its yields collected. */
  method SseEvents(raw: string) returns (r: Yield)
    ensures r == Events(Pieces(Unified(raw)), [])
  {
    var lines := Pieces(Unified(raw));
    var events: seq<string> := [];
    var data: seq<string> := [];
    for i := 0 to |lines| - 1
      invariant var rest := Events(lines[i..], data);
        Events(lines, []) == Yield(events + rest.events, rest.failure)
    {
      var line := lines[i];
      assert lines[i..][1..] == lines[i + 1..];
      if line == "" {
        if data != [] {
          ghost var rest := Events(lines[i + 1..], []);
          assert events + ([Join(data)] + rest.events) == events + [Join(data)] + rest.events;
          events := events + [Join(data)];
          data := [];
        }
      } else if line[0] == ':' {
      } else if FieldName(line) == "data" {
        data := data + [FieldValue(line)];
      } else if FieldName(line) !in {"event", "id", "retry"} {
        return Yield(events, Some(InvalidField));
      }
    }
    if data != [] || lines[|lines| - 1] != "" {
      return Yield(events, Some(IncompleteEvent));
    }
    return Yield(events, None);
  }

  // ------------------------------------------------------------------ a sender's stream

  /** What a sender may write between two blank lines: data, or lines that say nothing. */
  datatype Item = Data(value: string, spaced: bool) | Comment(text: string) | Other(name: string, value: string)

  function Written1(item: Item): string {
    match item
    case Data(value, spaced) => "data" + ":" + ((if spaced then " " else "") + value)
    case Comment(text) => ":" + text
    case Other(name, value) => name + ":" + value
  }

  predicate Sendable(item: Item) {
    match item
    case Data(value, spaced) => OneLine(value) && (spaced || value == "" || value[0] != ' ')
    case Comment(text) => OneLine(text)
    case Other(name, value) => name in {"event", "id", "retry"} && OneLine(value)
  }

  predicate SendableAll(items: seq<Item>) { forall i | 0 <= i < |items| :: Sendable(items[i]) }

  function Carried(item: Item): seq<string> { if item.Data? then [item.value] else [] }

  /** The data values of a block, in order. */
  function Values(items: seq<Item>): seq<string> {
    if items == [] then [] else Carried(items[0]) + Values(items[1..])
  }

  /** The payloads of the blocks that carry data. */
  function Payloads(blocks: seq<seq<Item>>): seq<string> {
    if blocks == [] then []
    else (if Values(blocks[0]) == [] then [] else [Join(Values(blocks[0]))]) + Payloads(blocks[1..])
  }

  function ItemLines(items: seq<Item>): seq<string> {
    if items == [] then [] else [Written1(items[0])] + ItemLines(items[1..])
  }

  /** Each block's lines, a blank line after each block. */
  function StreamLines(blocks: seq<seq<Item>>): seq<string> {
    if blocks == [] then [] else ItemLines(blocks[0]) + [""] + StreamLines(blocks[1..])
  }

  lemma DataReads(value: string, spaced: bool)
    requires Sendable(Data(value, spaced))
    ensures var line := Written1(Data(value, spaced));
      line != "" && line[0] != ':' && FieldName(line) == "data" && FieldValue(line) == value
  {
    var after := (if spaced then " " else "") + value;
    NamedField("data", after);
    if spaced { assert after[1..] == value; } else { assert after == value; }
  }

  lemma OtherReads(name: string, value: string)
    requires name in {"event", "id", "retry"}
    ensures var line := Written1(Other(name, value)); line != "" && line[0] != ':' && FieldName(line) == name != "data"
  {
    NamedField(name, value);
    assert Written1(Other(name, value))[0] == name[0];
  }

  lemma ItemReads(item: Item)
    requires Sendable(item)
    ensures Written1(item) != ""
    ensures item.Comment? <==> Written1(item)[0] == ':'
    ensures item.Data? <==> Written1(item)[0] != ':' && FieldName(Written1(item)) == "data"
    ensures item.Data? ==> FieldValue(Written1(item)) == item.value
    ensures item.Other? ==> FieldName(Written1(item)) == item.name
  {
    match item
    case Data(value, spaced) => DataReads(value, spaced);
    case Comment(_) =>
    case Other(name, value) => OtherReads(name, value);
  }

  lemma {:induction false} NamedField(name: string, value: string)
    requires ':' !in name
    ensures Colon(name + ":" + value) == |name|
    ensures FieldName(name + ":" + value) == name
    ensures FieldValue(name + ":" + value) == if value != "" && value[0] == ' ' then value[1..] else value
    decreases |name|
  {
    var line := name + ":" + value;
    if name != "" {
      assert name[0] in name;
      NamedField(name[1..], value);
      assert line[1..] == name[1..] + ":" + value;
    }
    assert line[..|name|] == name;
    assert line[|name| + 1..] == value;
  }

  lemma ItemStep(item: Item, tail: seq<string>, data: seq<string>)
    requires Sendable(item) && |tail| > 0
    ensures Events([Written1(item)] + tail, data) == Events(tail, data + Carried(item))
  {
    var lines := [Written1(item)] + tail;
    ItemReads(item);
    assert lines[1..] == tail;
    assert data + [] == data;
  }

  lemma {:induction false} ItemsRead(items: seq<Item>, rest: seq<string>, data: seq<string>)
    requires SendableAll(items) && |rest| > 0
    ensures Events(ItemLines(items) + rest, data) == Events(rest, data + Values(items))
    decreases |items|
  {
    if items == [] {
      assert ItemLines(items) + rest == rest && data + Values(items) == data;
    } else {
      var item, tail := items[0], ItemLines(items[1..]) + rest;
      assert [Written1(item)] + ItemLines(items[1..]) + rest == [Written1(item)] + tail;
      ItemStep(item, tail, data);
      ItemsRead(items[1..], rest, data + Carried(item));
      assert data + Carried(item) + Values(items[1..]) == data + (Carried(item) + Values(items[1..]));
    }
  }

  lemma {:induction false} BlocksRead(blocks: seq<seq<Item>>)
    requires forall i | 0 <= i < |blocks| :: SendableAll(blocks[i])
    ensures Events(StreamLines(blocks) + [""], []) == Yield(Payloads(blocks), None)
    decreases |blocks|
  {
    if blocks == [] {
      assert StreamLines(blocks) + [""] == [""];
    } else {
      var rest := StreamLines(blocks[1..]) + [""];
      assert StreamLines(blocks) + [""] == ItemLines(blocks[0]) + ([""] + rest);
      ItemsRead(blocks[0], [""] + rest, []);
      assert [] + Values(blocks[0]) == Values(blocks[0]);
      BlocksRead(blocks[1..]);
    }
  }

  /** A sender's payloads come back as they were, whichever end of line each line uses so long as
      none is ambiguous, with comments and the other fields in between. */
  lemma StreamReadsBack(blocks: seq<seq<Item>>, lines: seq<Line>)
    requires forall i | 0 <= i < |blocks| :: SendableAll(blocks[i])
    requires Texts(lines) == StreamLines(blocks) && OneLines(lines) && Unambiguous(lines)
    ensures Events(Pieces(Unified(Written(lines))), []) == Yield(Payloads(blocks), None)
  {
    LinesReadBack(lines);
    BlocksRead(blocks);
  }

  lemma OneEndingIsUnambiguous(lines: seq<Line>, e: Ending)
    requires forall i | 0 <= i < |lines| :: lines[i].ending == e
    ensures Unambiguous(lines)
  {
  }
}
