/** The head of a fixed-length HTTP/1.1 response: its lines, status code, fields and length. */
module HttpHead {
  import opened Outcomes
  import opened Searching

  datatype HeadError =
    | StatusLine
    | StatusCode
    | FieldSyntax(index: nat)
    | DuplicateLength
    | TransferEncoding
    | ContentLength

  datatype Head = Head(status: nat, fields: map<string, string>, length: nat)

  // ------------------------------------------------------------------ splitting

  /** Pieces between the marks, in order. */
  function Split(s: string, mark: string): seq<string>
    requires |mark| > 0
    decreases |s|
  {
    var i := Find(s, mark, 0);
    FindIsFirst(s, mark, 0);
    if i == |s| then [s] else [s[..i]] + Split(s[i + |mark|..], mark)
  }

  // ------------------------------------------------------------------ the head of a response

  predicate IsDigit(c: char) { '0' <= c <= '9' }

  predicate IsDigits(s: string) { |s| > 0 && forall i | 0 <= i < |s| :: IsDigit(s[i]) }

  function Decimal(s: string): nat
    requires forall i | 0 <= i < |s| :: IsDigit(s[i])
  {
    if |s| == 0 then 0
    else
      assert IsDigit(s[|s| - 1]);
      Decimal(s[..|s| - 1]) * 10 + (s[|s| - 1] as nat - '0' as nat)
  }

  function Lower(s: string): string {
    seq(|s|, i requires 0 <= i < |s| => if 'A' <= s[i] <= 'Z' then (s[i] as nat + 32) as char else s[i])
  }

  predicate IsBlank(c: char) { c == ' ' || c == '\t' }

  function Strip(s: string): string {
    if s != "" && IsBlank(s[0]) then Strip(s[1..])
    else if s != "" && IsBlank(s[|s| - 1]) then Strip(s[..|s| - 1])
    else s
  }

  /** The status code of a line of at least three parts, the first of them the version. */
  function Status(line: string): Result<nat, HeadError> {
    FindIsFirst(line, " ", 0);
    var i := Find(line, " ", 0);
    if i == |line| then Err(StatusLine)
    else
      FindIsFirst(line, " ", i + 1);
      var j := Find(line, " ", i + 1);
      if j == |line| || line[..i] != "HTTP/1.1" then Err(StatusLine)
      else if j - i - 1 != 3 || !IsDigits(line[i + 1..j]) then Err(StatusCode)
      else Ok(Decimal(line[i + 1..j]))
  }

  function AddField(fields: map<string, string>, line: string, index: nat): Result<map<string, string>, HeadError> {
    FindIsFirst(line, ":", 0);
    var colon := Find(line, ":", 0);
    if colon == |line| || IsBlank(line[0]) then Err(FieldSyntax(index))
    else
      var name := Lower(line[..colon]);
      if name == "content-length" && name in fields then Err(DuplicateLength)
      else Ok(fields[name := Strip(line[colon + 1..])])
  }

  /** The fields of the lines, the last of two with one name counting. */
  function Fields(lines: seq<string>): Result<map<string, string>, HeadError> {
    if |lines| == 0 then Ok(map[])
    else
      var before := Fields(lines[..|lines| - 1]);
      if before.Err? then before else AddField(before.value, lines[|lines| - 1], |lines| - 1)
  }

  /** A fixed-length response says its length in digits and uses no transfer coding. */
  function LengthIn(fields: map<string, string>): Result<nat, HeadError> {
    if "transfer-encoding" in fields then Err(TransferEncoding)
    else if "content-length" !in fields || !IsDigits(fields["content-length"]) then Err(ContentLength)
    else Ok(Decimal(fields["content-length"]))
  }

  function ParseHead(header: string): Result<Head, HeadError> {
    var lines := Split(header, "\r\n");
    var status := Status(lines[0]);
    if status.Err? then Err(status.error)
    else
      var fields := Fields(lines[1..]);
      if fields.Err? then Err(fields.error)
      else
        var length := LengthIn(fields.value);
        if length.Err? then Err(length.error) else Ok(Head(status.value, fields.value, length.value))
  }

  method ReadFields(lines: seq<string>) returns (r: Result<map<string, string>, HeadError>)
    ensures r == Fields(lines)
  {
    var fields: map<string, string> := map[];
    for index := 0 to |lines|
      invariant Fields(lines[..index]) == Ok(fields)
    {
      assert lines[..index + 1][..index] == lines[..index];
      var added := AddField(fields, lines[index], index);
      if added.Err? {
        ErrorStays(lines, index + 1);
        return added;
      }
      fields := added.value;
    }
    assert lines[..|lines|] == lines;
    return Ok(fields);
  }

  lemma {:induction false} ErrorStays(lines: seq<string>, n: nat)
    requires n <= |lines| && Fields(lines[..n]).Err?
    ensures Fields(lines) == Fields(lines[..n])
    decreases |lines|
  {
    if n == |lines| {
      assert lines[..n] == lines;
    } else {
      assert lines[..|lines| - 1][..n] == lines[..n];
      ErrorStays(lines[..|lines| - 1], n);
    }
  }

  // ------------------------------------------------------------------ what an accepted head says

  /** The name a field line gives its value to. */
  function NameOf(line: string): string {
    FindIsFirst(line, ":", 0);
    Lower(line[..Find(line, ":", 0)])
  }

  function LinesNamed(lines: seq<string>, name: string): nat {
    if |lines| == 0 then 0
    else LinesNamed(lines[..|lines| - 1], name) + if NameOf(lines[|lines| - 1]) == name then 1 else 0
  }

  /** The fields are those the lines name, and the length is named at most once. */
  lemma {:induction false} FieldsNamed(lines: seq<string>, name: string)
    requires Fields(lines).Ok?
    ensures name in Fields(lines).value <==> LinesNamed(lines, name) > 0
    ensures LinesNamed(lines, "content-length") <= 1
    decreases |lines|
  {
    if |lines| > 0 {
      FieldsNamed(lines[..|lines| - 1], name);
      FieldsNamed(lines[..|lines| - 1], "content-length");
    }
  }

  /** A head is accepted only with one line that gives a decimal length, and without a transfer
      coding, as section 6.3 of RFC 9112 needs for an unambiguous body. */
  lemma AcceptedHeadIsFixedLength(header: string)
    requires ParseHead(header).Ok?
    ensures var lines, head := Split(header, "\r\n")[1..], ParseHead(header).value;
      && LinesNamed(lines, "content-length") == 1 && LinesNamed(lines, "transfer-encoding") == 0
      && "content-length" in head.fields && IsDigits(head.fields["content-length"])
      && head.length == Decimal(head.fields["content-length"])
  {
    var lines := Split(header, "\r\n")[1..];
    FieldsNamed(lines, "content-length");
    FieldsNamed(lines, "transfer-encoding");
  }

  // ------------------------------------------------------------------ line by line

  /** Searching for a single character finds its first place. */
  lemma FindChar(line: string, c: char, from: nat)
    requires from <= |line|
    ensures var k := Find(line, [c], from);
      from <= k <= |line| && (k < |line| ==> line[k] == c) && forall j | from <= j < k :: line[j] != c
  {
    FindIsFirst(line, [c], from);
    forall j | from <= j < |line| ensures Occurs(line, [c], j) <==> line[j] == c {
      assert line[j..j + 1] == [line[j]];
    }
  }

  /** A line of the protocol's version and two more parts after single blanks gives the second part, of three digits; with
      fewer parts or another version it is no status line, with another second part it has no status code. */
  lemma StatusIs(line: string)
    ensures Status(line) == Err(StatusLine) <==> |line| < 9 || line[..9] != "HTTP/1.1 " || ' ' !in line[9..]
    ensures Status(line).Ok? <==>
      |line| > 12 && line[..9] == "HTTP/1.1 " && line[12] == ' '
      && '0' <= line[9] <= '9' && '0' <= line[10] <= '9' && '0' <= line[11] <= '9'
    ensures Status(line).Ok? ==> Status(line).value == Decimal(line[9..12])
    ensures Status(line).Err? ==> Status(line).error == StatusLine || Status(line).error == StatusCode
  {
    FindChar(line, ' ', 0);
    if |line| >= 9 && line[..9] == "HTTP/1.1 " {
      assert line[8] == line[..9][8] && forall j | 0 <= j < 8 :: line[j] == line[..9][j];
      assert Find(line, " ", 0) == 8 && line[..8] == line[..9][..8] == "HTTP/1.1";
      SecondPart(line);
      if |line| > 12 { ThreeDigits(line); }
    }
  }

  lemma ThreeDigits(line: string)
    requires |line| > 12
    ensures IsDigits(line[9..12]) <==> '0' <= line[9] <= '9' && '0' <= line[10] <= '9' && '0' <= line[11] <= '9'
    ensures IsDigits(line[9..12]) ==> forall k | 9 <= k < 12 :: line[k] != ' '
  {
    var code := line[9..12];
    assert code[0] == line[9] && code[1] == line[10] && code[2] == line[11];
  }

  lemma SecondPart(line: string)
    requires |line| >= 9
    ensures Find(line, " ", 9) < |line| <==> ' ' in line[9..]
    ensures 9 <= Find(line, " ", 9) <= |line|
    ensures |line| > 12 && line[12] == ' ' && (forall k | 9 <= k < 12 :: line[k] != ' ') ==> Find(line, " ", 9) == 12
    ensures Find(line, " ", 9) == 12 < |line| ==> line[12] == ' '
  {
    FindChar(line, ' ', 9);
    if ' ' in line[9..] {
      var k :| 0 <= k < |line[9..]| && line[9..][k] == ' ';
      assert line[9 + k] == ' ';
    }
    if Find(line, " ", 9) < |line| { assert line[9..][Find(line, " ", 9) - 9] == ' '; }
  }

  /** A field line gives its value, without the blanks and tabs around it, to what stands before its first colon, whose
      capitals do not matter; a second length is refused, and so is a line without a colon or with a blank in front. */
  lemma FieldSays(fields: map<string, string>, name: string, value: string, index: nat)
    requires ':' !in name && (name != "" ==> name[0] != ' ' && name[0] != '\t')
    ensures AddField(fields, name + ":" + value, index) ==
      if Lower(name) == "content-length" && "content-length" in fields then Err(DuplicateLength)
      else Ok(fields[Lower(name) := Strip(value)])
  {
    AtColon(name, value);
  }

  lemma AtColon(name: string, value: string)
    requires ':' !in name
    ensures var line := name + ":" + value;
      Find(line, ":", 0) == |name| && line[..|name|] == name && line[|name| + 1..] == value && line[0] == if name == "" then ':' else name[0]
  {
    var line := name + ":" + value;
    FindChar(line, ':', 0);
    assert line[|name|] == ':';
  }

  lemma NoField(fields: map<string, string>, line: string, index: nat)
    requires ':' !in line || line[0] == ' ' || line[0] == '\t'
    ensures AddField(fields, line, index) == Err(FieldSyntax(index))
  {
    FindChar(line, ':', 0);
  }

  lemma {:induction false} StripSays(left: string, core: string, right: string)
    requires forall i | 0 <= i < |left| :: left[i] == ' ' || left[i] == '\t'
    requires forall i | 0 <= i < |right| :: right[i] == ' ' || right[i] == '\t'
    requires core != "" ==> !IsBlank(core[0]) && !IsBlank(core[|core| - 1])
    ensures Strip(left + core + right) == core
    decreases |left| + |right|
  {
    var s := left + core + right;
    if left != "" {
      assert s[1..] == left[1..] + core + right;
      StripSays(left[1..], core, right);
    } else if right != "" {
      if core == "" {
        assert s[1..] == left + core + right[1..];
        StripSays(left, core, right[1..]);
      } else {
        assert s[0] == core[0] && s[|s| - 1] == right[|right| - 1];
        assert s[..|s| - 1] == left + core + right[..|right| - 1];
        StripSays(left, core, right[..|right| - 1]);
      }
    } else {
      assert s == core;
    }
  }

  /** Capitals are the letters with the codes 65 to 90, digits the characters 48 to 57. */
  lemma Codes(s: string, i: nat)
    requires i < |s|
    ensures |Lower(s)| == |s|
    ensures Lower(s)[i] as int == if 65 <= s[i] as int <= 90 then s[i] as int + 32 else s[i] as int
    ensures IsDigit(s[i]) <==> 48 <= s[i] as int <= 57
  {
  }

  lemma LengthSays(fields: map<string, string>)
    ensures LengthIn(fields) == Err(TransferEncoding) <==> "transfer-encoding" in fields
    ensures LengthIn(fields).Ok? <==>
      && "transfer-encoding" !in fields && "content-length" in fields && fields["content-length"] != ""
      && forall i | 0 <= i < |fields["content-length"]| :: '0' <= fields["content-length"][i] <= '9'
    ensures LengthIn(fields).Ok? ==> LengthIn(fields).value == Decimal(fields["content-length"])
    ensures LengthIn(fields).Err? ==> LengthIn(fields).error == TransferEncoding || LengthIn(fields).error == ContentLength
  {
  }

  // ------------------------------------------------------------------ a head as a server writes it

  function Digits(n: nat): string {
    if n < 10 then [('0' as nat + n) as char] else Digits(n / 10) + [('0' as nat + n % 10) as char]
  }

  lemma {:induction false} DigitsDenote(n: nat)
    ensures IsDigits(Digits(n)) && Decimal(Digits(n)) == n
  {
    if n < 10 {
      var d := Digits(n);
      assert d[..0] == "";
      assert Decimal(d) == Decimal(d[..0]) * 10 + n;
    } else {
      DigitsDenote(n / 10);
      var d, front := Digits(n), Digits(n / 10);
      assert d[..|d| - 1] == front;
      assert forall i | 0 <= i < |d| :: IsDigit(d[i]) by {
        forall i | 0 <= i < |d| ensures IsDigit(d[i]) { if i < |front| { assert d[i] == front[i]; } }
      }
    }
  }

  lemma OccursStarts(s: string, mark: string, i: nat)
    requires i < |s| && |mark| > 0
    ensures Occurs(s, mark, i) ==> s[i] == mark[0]
  {
  }

  /** A mark is found right after a text that does not hold its first character. */
  lemma FoundAfter(before: string, text: string, mark: string, rest: string)
    requires |mark| > 0 && mark[0] !in text
    ensures Find(before + text + mark + rest, mark, |before|) == |before| + |text|
  {
    var s, at := before + text + mark + rest, |before| + |text|;
    FindIsFirst(s, mark, |before|);
    assert Occurs(s, mark, at);
    forall i | |before| <= i < at ensures !Occurs(s, mark, i) {
      assert s[i] == text[i - |before|];
      OccursStarts(s, mark, i);
    }
  }

  lemma NotFound(text: string, mark: string)
    requires |mark| > 0 && mark[0] !in text
    ensures Find(text, mark, 0) == |text|
  {
    FindIsFirst(text, mark, 0);
    var i := Find(text, mark, 0);
    if i < |text| { OccursStarts(text, mark, i); }
  }

  lemma SplitInTwo(a: string, b: string, mark: string)
    requires |mark| > 0 && mark[0] !in a && mark[0] !in b
    ensures Split(a + mark + b, mark) == [a, b]
  {
    var s := a + mark + b;
    FoundAfter("", a, mark, b);
    assert "" + a + mark + b == s;
    assert s[..|a|] == a && s[|a| + |mark|..] == b;
    NotFound(b, mark);
  }

  lemma StatusReads(code: string, reason: string)
    requires |code| == 3 && IsDigits(code)
    ensures Status("HTTP/1.1" + " " + code + " " + reason) == Ok(Decimal(code))
  {
    var line := "HTTP/1.1" + " " + code + " " + reason;
    FoundAfter("", "HTTP/1.1", " ", code + " " + reason);
    assert "" + "HTTP/1.1" + " " + (code + " " + reason) == line;
    FoundAfter("HTTP/1.1 ", code, " ", reason);
    assert "HTTP/1.1 " + code + " " + reason == line;
    assert line[..8] == "HTTP/1.1" && line[9..12] == code;
  }

  lemma StripReads(digits: string)
    requires IsDigits(digits)
    ensures Strip(" " + digits) == digits
  {
  }

  lemma LengthFieldReads(digits: string)
    requires IsDigits(digits)
    ensures AddField(map[], "Content-Length" + ":" + " " + digits, 0) == Ok(map["content-length" := digits])
  {
    var name := "Content-Length";
    var line := name + ":" + " " + digits;
    FoundAfter("", name, ":", " " + digits);
    assert "" + name + ":" + (" " + digits) == line;
    assert Find(line, ":", 0) == 14 && line[0] == 'C';
    assert line[..14] == name && line[15..] == " " + digits;
    assert Lower(name) == "content-length";
    StripReads(digits);
  }

  function Rendered(code: string, reason: string, length: nat): string {
    "HTTP/1.1" + " " + code + " " + reason + "\r\n" + ("Content-Length" + ":" + " " + Digits(length))
  }

  /** A status line and a Content-Length field read back as what they say. */
  lemma RenderedParses(code: string, reason: string, length: nat)
    requires |code| == 3 && IsDigits(code) && '\r' !in reason
    ensures ParseHead(Rendered(code, reason, length)) ==
      Ok(Head(Decimal(code), map["content-length" := Digits(length)], length))
  {
    var status, field := "HTTP/1.1" + " " + code + " " + reason, "Content-Length" + ":" + " " + Digits(length);
    DigitsDenote(length);
    SplitInTwo(status, field, "\r\n");
    StatusReads(code, reason);
    LengthFieldReads(Digits(length));
    assert [status, field][1..] == [field];
    assert Fields([]) == Ok(map[]) && [field][..0] == [];
    assert Fields([field]) == AddField(map[], field, 0);
  }
}
