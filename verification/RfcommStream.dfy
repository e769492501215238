/**
 Hayes AT messages on a Bluetooth serial link, as functions of the characters that
 remain to be read: what each reader consumes, what it puts out and how it ends.
 */
module RfcommStream {

  const CR: char := '\r'
  const LF: char := '\n'
  const CRLF: string := "\r\n"

  /** The end of a text message: an empty line, then OK. */
  const OKS: string := "\r\nOK\r\n"

  const MISMATCH := -2

  /** What read() returns when there is no character: 0 at the end of file, -1 on an error. */
  type End = x: int | x == 0 || x == -1

  /** How a reader ends: its result (1, the End of a failed read, or MISMATCH), the
      characters it put out, and the characters it left. */
  datatype Scan = Scan(res: int, out: string, rest: string)

  function Then(before: string, r: Scan): Scan {
    r.(out := before + r.out)
  }

  lemma Glue(a: string, b: string, c: string, d: string)
    ensures (a + b) + c + d == a + (b + c + d)
  {
  }

  lemma Assoc(a: string, b: string, c: string)
    ensures (a + b) + c == a + (b + c)
  {
  }

  /** Reads to the end of a line.  A CR that no LF follows is part of the line. */
  function UntilCrlf(s: string, end: End): (r: Scan)
    ensures r.res == 1 ==> s == r.out + CRLF + r.rest
    ensures r.res != 1 ==> r.res == end && s == r.out && r.rest == ""
  {
    if s == "" then Scan(end, "", "")
    else if s[0] != CR then
      var r := UntilCrlf(s[1..], end);
      Glue([s[0]], r.out, CRLF, r.rest);
      assert s == [s[0]] + s[1..];
      Then([s[0]], r)
    else if |s| == 1 then Scan(end, [CR], "")
    else if s[1] == LF then
      assert s == "" + CRLF + s[2..];
      Scan(1, "", s[2..])
    else
      var r := UntilCrlf(s[2..], end);
      Glue([CR, s[1]], r.out, CRLF, r.rest);
      assert s == [CR, s[1]] + s[2..];
      Then([CR, s[1]], r)
  }

  /** How many characters of OKS, from k on, the input starts with. */
  function Matched(s: string, k: nat): (m: nat)
    requires k <= |OKS|
    ensures k <= m <= |OKS| && m - k <= |s| && s[..m - k] == OKS[k..m]
    ensures m < |OKS| && m - k < |s| ==> s[m - k] != OKS[m]
    decreases |s|
  {
    if k < |OKS| && s != "" && s[0] == OKS[k] then
      var m := Matched(s[1..], k + 1);
      assert s[..m - k] == [s[0]] + s[1..][..m - k - 1];
      m
    else k
  }

  /** At the start of a line: looks for OKS.  What matched before the first difference is
      put out together with the character that differs, and the line goes on after it. */
  function LineStart(s: string, end: End): Scan
    decreases |s|, 0
  {
    var m := Matched(s, 0);
    if m == |OKS| then Scan(1, "", s[|OKS|..])
    else if m == |s| then Scan(end, "", "")
    else Then(s[..m + 1], UntilOk(s[m + 1..], end))
  }

  /** Reads line after line up to the end of a text message. */
  function UntilOk(s: string, end: End): Scan
    decreases |s|, 1
  {
    var line := UntilCrlf(s, end);
    if line.res != 1 then line
    else
      assert |s| == |line.out| + 2 + |line.rest|;
      Then(line.out + CRLF, LineStart(line.rest, end))
  }

  /** Nothing is lost, doubled or reordered: what a reader consumed is what it put out, then
      OKS if it succeeded, and if not an unfinished OKS at the end of the input. */
  ghost predicate Conserved(s: string, r: Scan, end: End) {
    || (r.res == 1 && s == r.out + OKS + r.rest)
    || (r.res == end && r.rest == "" && exists m :: 0 <= m < |OKS| && s == r.out + OKS[..m])
  }

  lemma ConservedThen(before: string, s: string, r: Scan, end: End)
    requires Conserved(s, r, end)
    ensures Conserved(before + s, Then(before, r), end)
  {
    if r.res == 1 && s == r.out + OKS + r.rest {
      Glue(before, r.out, OKS, r.rest);
    } else {
      var m :| 0 <= m < |OKS| && s == r.out + OKS[..m];
      assert before + s == (before + r.out) + OKS[..m];
    }
  }

  lemma OkConserved(s: string, end: End)
    requires |OKS| <= |s| && s[..|OKS|] == OKS
    ensures Conserved(s, Scan(1, "", s[|OKS|..]), end)
  {
    assert s == s[..|OKS|] + s[|OKS|..];
    assert "" + OKS == OKS;
  }

  lemma PartConserved(s: string, m: nat, end: End)
    requires m < |OKS| && s == OKS[..m]
    ensures Conserved(s, Scan(end, "", ""), end)
  {
    assert s == "" + OKS[..m];
  }

  lemma RestConserved(s: string, n: nat, r: Scan, end: End)
    requires n <= |s| && Conserved(s[n..], r, end)
    ensures Conserved(s, Then(s[..n], r), end)
  {
    ConservedThen(s[..n], s[n..], r, end);
    assert s == s[..n] + s[n..];
  }

  lemma {:induction false} UntilOkConserved(s: string, end: End)
    ensures Conserved(s, UntilOk(s, end), end)
    decreases |s|, 1
  {
    var line := UntilCrlf(s, end);
    if line.res != 1 {
      assert s == line.out + OKS[..0];
    } else {
      assert |s| == |line.out| + 2 + |line.rest|;
      LineStartConserved(line.rest, end);
      ConservedThen(line.out + CRLF, line.rest, LineStart(line.rest, end), end);
    }
  }

  lemma {:induction false} LineStartConserved(s: string, end: End)
    ensures Conserved(s, LineStart(s, end), end)
    decreases |s|, 0
  {
    var m := Matched(s, 0);
    if m == |OKS| {
      OkConserved(s, end);
    } else if m == |s| {
      assert s == s[..m] == OKS[0..m] == OKS[..m];
      PartConserved(s, m, end);
    } else {
      UntilOkConserved(s[m + 1..], end);
      RestConserved(s, m + 1, UntilOk(s[m + 1..], end), end);
    }
  }

  // ---------- whole messages ----------

  const CMGR: string := "+CMGR"

  /** The line of a result code, from its first character on.  A text message, which begins
      with +CMGR, is recognised in the buffer, which holds `count` characters at most. */
  function ResultLine(s: string, count: nat, end: End): Scan
    requires s != ""
  {
    var line := Then([s[0]], UntilCrlf(s[1..], end));
    if line.res == 1 && count >= |CMGR| && CMGR <= line.out
    then Then(line.out + CRLF, UntilOk(line.rest, end))
    else line
  }

  /** The rest of a result code, after its first CR. */
  function ResultCode(s: string, count: nat, end: End): Scan {
    if s == "" then Scan(end, "", "")
    else if s[0] != LF then Scan(MISMATCH, "", s[1..])
    else if |s| == 1 then Scan(end, "", "")
    else if s[1] == '>' then
      if |s| == 2 then Scan(end, ">", "")
      else if s[2] == ' ' then Scan(1, "> ", s[3..])
      else Scan(MISMATCH, ">", s[3..])
    else ResultLine(s[1..], count, end)
  }

  function UntilCr(s: string, end: End): Scan {
    if s == "" then Scan(end, "", "")
    else if s[0] == CR then Scan(1, "", s[1..])
    else Then([s[0]], UntilCr(s[1..], end))
  }

  /** One call of rfcomm_read. */
  function Message(s: string, count: nat, end: End): Scan {
    if s == "" then Scan(end, "", "")
    else if s[0] == CR then ResultCode(s[1..], count, end)
    else Then([s[0]], UntilCr(s[1..], end))
  }

  /** The part of a text that a buffer of `count` characters holds. */
  function Fit(out: string, count: nat): string {
    if |out| <= count then out else out[..count]
  }

  // ---------- messages as a device prints them ----------

  datatype Msg =
    | Result(text: string)
    | Command(text: string)
    | Prompt
    | TextMessage(header: string, lines: seq<string>)

  predicate Line(s: string) {
    s != "" && CR !in s
  }

  predicate NoCr(lines: seq<string>) {
    forall l :: l in lines ==> CR !in l
  }

  /** Where the reader sees the end of a text: behind its lines, at an empty line and a line OK
      between the lines before and the lines after, or nowhere. */
  datatype Seen = Behind | Within(before: seq<string>, after: seq<string>) | Nowhere

  /** The same with lines in front. */
  function Later(front: seq<string>, r: Seen): Seen {
    if r.Within? then Within(front + r.before, r.after) else r
  }

  /** The lines in front that the reader takes as text. An empty line is looked at together with
      the one behind it, which ends the text when it is OK, and takes a third line with it when
      it is empty or O. */
  function Front(lines: seq<string>): nat
    requires lines != []
  {
    if lines[0] != "" then 1
    else if |lines| == 1 || lines[1] == "OK" then 0
    else if lines[1] != "" && lines[1] != "O" then 2
    else if |lines| == 2 then 0 else 3
  }

  /** At the start of a line. */
  function Search(lines: seq<string>): Seen {
    if lines == [] then Behind
    else
      var n := Front(lines);
      if n > 0 then Later(lines[..n], Search(lines[n..]))
      else if |lines| >= 2 && lines[1] == "OK" then Within([], lines[2..])
      else Nowhere
  }

  /** At the start of the text: its first line is read to its end, whatever it holds. */
  function SearchText(lines: seq<string>): Seen {
    if lines == [] then Nowhere else Later(lines[..1], Search(lines[1..]))
  }

  predicate Printable(m: Msg, count: nat) {
    match m
    case Result(text) => Line(text) && text[0] != '>' && !(CMGR <= text)
    case Command(text) => Line(text)
    case Prompt => true
    case TextMessage(header, lines) =>
      Line(header) && CMGR <= header && count >= |CMGR| && NoCr(lines) && SearchText(lines) == Behind
  }

  function Lines(lines: seq<string>): string {
    if lines == [] then "" else lines[0] + CRLF + Lines(lines[1..])
  }

  function Print(m: Msg): string {
    match m
    case Result(text) => CRLF + text + CRLF
    case Command(text) => text + [CR]
    case Prompt => CRLF + "> "
    case TextMessage(header, lines) => CRLF + header + CRLF + Lines(lines) + OKS
  }

  function PrintAll(ms: seq<Msg>): string {
    if ms == [] then "" else Print(ms[0]) + PrintAll(ms[1..])
  }

  /** The text that a reader is to get for a message. */
  function Text(m: Msg): string {
    match m
    case Result(text) => text
    case Command(text) => text
    case Prompt => "> "
    case TextMessage(header, lines) => header + CRLF + Lines(lines)
  }

  // ---------- reading back what was printed ----------

  lemma {:induction false} LineRead(text: string, tail: string, end: End)
    requires CR !in text
    ensures UntilCrlf(text + CRLF + tail, end) == Scan(1, text, tail)
  {
    var s := text + CRLF + tail;
    if text == "" {
      assert s[2..] == tail;
    } else {
      assert s[1..] == text[1..] + CRLF + tail;
      LineRead(text[1..], tail, end);
    }
  }

  lemma {:induction false} CommandRead(text: string, tail: string, end: End)
    requires CR !in text
    ensures UntilCr(text + [CR] + tail, end) == Scan(1, text, tail)
  {
    var s := text + [CR] + tail;
    if text == "" {
      assert s[1..] == tail;
    } else {
      assert s[1..] == text[1..] + [CR] + tail;
      CommandRead(text[1..], tail, end);
    }
  }

  lemma ThenThen(a: string, b: string, r: Scan)
    ensures Then(a, Then(b, r)) == Then(a + b, r)
  {
    assert a + (b + r.out) == (a + b) + r.out;
  }

  lemma DropFirst(text: string, more: string, tail: string)
    requires text != ""
    ensures var s := text + more + tail;
            s[0] == text[0] && s[1..] == text[1..] + more + tail && s[..1] + (text[1..] + more) == text + more
  {
    assert text == [text[0]] + text[1..];
    Glue([text[0]], text[1..], more, tail);
    Assoc([text[0]], text[1..], more);
  }

  lemma NothingMatches(s: string, end: End)
    requires s != "" && s[0] != CR
    ensures LineStart(s, end) == Then(s[..1], UntilOk(s[1..], end))
  {
    assert Matched(s, 0) == 0;
  }

  /** The rest of a line is read, then a line starts. */
  lemma RestOfLine(text: string, tail: string, end: End)
    requires CR !in text
    ensures UntilOk(text + CRLF + tail, end) == Then(text + CRLF, LineStart(tail, end))
  {
    LineRead(text, tail, end);
  }

  lemma LineStartsNoOk(text: string, tail: string, end: End)
    requires Line(text)
    ensures LineStart(text + CRLF + tail, end) == Then(text + CRLF, LineStart(tail, end))
  {
    var s := text + CRLF + tail;
    DropFirst(text, CRLF, tail);
    NothingMatches(s, end);
    RestOfLine(text[1..], tail, end);
    ThenThen(s[..1], text[1..] + CRLF, LineStart(tail, end));
  }

  lemma OkRead(tail: string, end: End)
    ensures LineStart(OKS + tail, end) == Scan(1, "", tail)
  {
    var s := OKS + tail;
    assert s[|OKS|..] == tail;
    assert forall i :: 0 <= i < |OKS| ==> s[i] == OKS[i];
  }

  /** Two empty lines in a row: the second CR is taken for text. */
  lemma EmptyLines(s: string, more: string, end: End)
    requires s == CRLF + CRLF + more
    ensures LineStart(s, end) == Then("\r\n\r", UntilOk([LF] + more, end))
  {
    assert s[0] == CR && s[1] == LF && s[2] == CR;
    assert Matched(s[2..], 2) == 2 && s[1..][1..] == s[2..];
    assert Matched(s[1..], 1) == 2;
    assert Matched(s, 0) == 2;
    assert s[..3] == "\r\n\r" && s[3..] == [LF] + more;
  }

  lemma LfLine(s: string, text: string, rest: string, end: End)
    requires s == [LF] + (text + CRLF + rest) && CR !in text
    ensures UntilOk(s, end) == Then([LF] + text + CRLF, LineStart(rest, end))
  {
    Glue([LF], text, CRLF, rest);
    RestOfLine([LF] + text, rest, end);
  }

  lemma AfterEmptyLines(s: string, text: string, rest: string, end: End)
    requires s == CRLF + CRLF + (text + CRLF + rest) && CR !in text
    ensures LineStart(s, end) == Then(CRLF + CRLF + text + CRLF, LineStart(rest, end))
  {
    EmptyLines(s, text + CRLF + rest, end);
    LfLine([LF] + (text + CRLF + rest), text, rest, end);
    var p: string := "\r\n\r";
    ThenThen(p, [LF] + text + CRLF, LineStart(rest, end));
    assert p + [LF] == CRLF + CRLF;
    WithLf(p, CRLF + CRLF, text);
  }

  /** An empty line and a line O: the CR behind the O is taken for text. */
  lemma EmptyThenO(s: string, more: string, end: End)
    requires s == CRLF + "O" + CRLF + more
    ensures LineStart(s, end) == Then("\r\nO\r", UntilOk([LF] + more, end))
  {
    assert s[0] == CR && s[1] == LF && s[2] == 'O' && s[3] == CR;
    assert s[1..][1..] == s[2..] && s[2..][1..] == s[3..];
    assert Matched(s[3..], 3) == 3;
    assert Matched(s[2..], 2) == 3;
    assert Matched(s[1..], 1) == 3;
    assert Matched(s, 0) == 3;
    assert s[..4] == "\r\nO\r" && s[4..] == [LF] + more;
  }

  lemma TakesThirdEmpty(third: string, more: string, end: End)
    requires CR !in third
    ensures LineStart(CRLF + CRLF + (third + CRLF + more), end)
         == Then(CRLF + CRLF + third + CRLF, LineStart(more, end))
  {
    AfterEmptyLines(CRLF + CRLF + (third + CRLF + more), third, more, end);
  }

  lemma WithLf(p: string, q: string, text: string)
    requires p + [LF] == q
    ensures p + ([LF] + text + CRLF) == q + text + CRLF
  {
    Glue(p, [LF], text, CRLF);
  }

  lemma TakesThirdO(third: string, more: string, end: End)
    requires CR !in third
    ensures LineStart(CRLF + "O" + CRLF + (third + CRLF + more), end)
         == Then(CRLF + "O" + CRLF + third + CRLF, LineStart(more, end))
  {
    var w := third + CRLF + more;
    EmptyThenO(CRLF + "O" + CRLF + w, w, end);
    LfLine([LF] + w, third, more, end);
    var p: string := "\r\nO\r";
    ThenThen(p, [LF] + third + CRLF, LineStart(more, end));
    assert p + [LF] == CRLF + "O" + CRLF;
    WithLf(p, CRLF + "O" + CRLF, third);
  }

  /** Behind an empty line, one that is empty or O takes the next line with it. */
  lemma TakesThird(second: string, third: string, more: string, end: End)
    requires (second == "" || second == "O") && CR !in third
    ensures LineStart(CRLF + second + CRLF + (third + CRLF + more), end)
         == Then(CRLF + second + CRLF + third + CRLF, LineStart(more, end))
  {
    if second == "" {
      assert CRLF + second == CRLF;
      TakesThirdEmpty(third, more, end);
    } else {
      TakesThirdO(third, more, end);
    }
  }

  lemma {:induction false} MatchStops(s: string, m: nat, k: nat)
    requires k <= m < |OKS| && m < |s| && s[k..m] == OKS[k..m] && s[m] != OKS[m]
    ensures Matched(s[k..], k) == m
    decreases m - k
  {
    if k < m {
      assert s[k] == s[k..m][0] == OKS[k..m][0] == OKS[k];
      assert s[k + 1..m] == s[k..m][1..] == OKS[k..m][1..] == OKS[k + 1..m];
      MatchStops(s, m, k + 1);
      assert s[k..][1..] == s[k + 1..];
    }
  }

  /** How much of OKS an empty line and another line match. */
  lemma OtherMatches(second: string, s: string, more: string) returns (m: nat)
    requires CR !in second && second != "" && second != "O" && second != "OK" && s == CRLF + second + CRLF + more
    ensures m == Matched(s, 0) && 2 <= m <= |second| + 1 && m < |OKS|
  {
    m := if second[0] != 'O' then 2 else if second[1] != 'K' then 3 else 4;
    assert m - 2 < |second| && s[m] == second[m - 2];
    assert s[..m] == CRLF + second[..m - 2] == OKS[..m];
    assert s[0..m] == s[..m] && OKS[0..m] == OKS[..m] && s[0..] == s;
    MatchStops(s, m, 0);
  }

  lemma SplitLine(second: string, m: nat, more: string)
    requires 2 <= m <= |second| + 1
    ensures var s, left := CRLF + second + CRLF + more, second[m - 1..];
            s[..m + 1] + (left + CRLF) == CRLF + second + CRLF && s[m + 1..] == left + CRLF + more
  {
    var s, left := CRLF + second + CRLF + more, second[m - 1..];
    assert second == second[..m - 1] + left;
    assert s == (CRLF + second[..m - 1]) + (left + CRLF + more);
    assert s[..m + 1] == CRLF + second[..m - 1];
  }

  /** An empty line and another line that does not end the text. */
  lemma TakesSecond(second: string, more: string, end: End)
    requires CR !in second && second != "" && second != "O" && second != "OK"
    ensures LineStart(CRLF + second + CRLF + more, end) == Then(CRLF + second + CRLF, LineStart(more, end))
  {
    var s := CRLF + second + CRLF + more;
    var m := OtherMatches(second, s, more);
    var left := second[m - 1..];
    SplitLine(second, m, more);
    RestOfLine(left, more, end);
    ThenThen(s[..m + 1], left + CRLF, LineStart(more, end));
  }

  // ---------- where a text message ends ----------

  /** What is read when a text is searched with that result. */
  function Outcome(lines: seq<string>, r: Seen, tail: string, end: End): Scan {
    match r
    case Behind => Scan(1, Lines(lines), tail)
    case Within(before, after) => Scan(1, Lines(before), Lines(after) + OKS + tail)
    case Nowhere => Then(Lines(lines) + OKS, LineStart(tail, end))
  }

  lemma {:induction false} LinesJoined(p: seq<string>, q: seq<string>)
    ensures Lines(p + q) == Lines(p) + Lines(q)
  {
    if p == [] {
      assert p + q == q;
    } else {
      assert (p + q)[1..] == p[1..] + q;
      LinesJoined(p[1..], q);
    }
  }

  lemma NowhereLater(p: seq<string>, q: seq<string>, r: Scan)
    ensures Then(Lines(p + q) + OKS, r) == Then(Lines(p), Then(Lines(q) + OKS, r))
  {
    LinesJoined(p, q);
    ThenThen(Lines(p), Lines(q) + OKS, r);
    Assoc(Lines(p), Lines(q), OKS);
  }

  /** Lines in front that are taken as text. */
  lemma OutcomeLater(p: seq<string>, q: seq<string>, r: Seen, tail: string, end: End)
    ensures Outcome(p + q, Later(p, r), tail, end) == Then(Lines(p), Outcome(q, r, tail, end))
  {
    match r
    case Behind => LinesJoined(p, q);
    case Within(before, after) => LinesJoined(p, before);
    case Nowhere => NowhereLater(p, q, LineStart(tail, end));
  }

  lemma OneLine(a: string)
    ensures Lines([a]) == a + CRLF
  {
    assert [a][1..] == [];
  }

  lemma TwoLines(a: string, b: string)
    ensures Lines([a, b]) == a + CRLF + b + CRLF
  {
    assert [a, b][1..] == [b];
    OneLine(b);
  }

  lemma ThreeLines(a: string, b: string, c: string)
    ensures Lines([a, b, c]) == a + CRLF + b + CRLF + c + CRLF
  {
    assert [a, b, c][1..] == [b, c];
    TwoLines(b, c);
  }

  lemma FirstIsTaken(line: string, more: string, end: End)
    requires Line(line)
    ensures LineStart(Lines([line]) + more, end) == Then(Lines([line]), LineStart(more, end))
  {
    OneLine(line);
    LineStartsNoOk(line, more, end);
  }

  lemma TwoAreTaken(second: string, more: string, end: End)
    requires CR !in second && second != "" && second != "O" && second != "OK"
    ensures LineStart(Lines(["", second]) + more, end) == Then(Lines(["", second]), LineStart(more, end))
  {
    TwoLines("", second);
    assert "" + CRLF == CRLF;
    TakesSecond(second, more, end);
  }

  lemma ThreeAreTaken(second: string, third: string, more: string, end: End)
    requires (second == "" || second == "O") && CR !in third
    ensures LineStart(Lines(["", second, third]) + more, end) == Then(Lines(["", second, third]), LineStart(more, end))
  {
    ThreeLines("", second, third);
    assert "" + CRLF == CRLF;
    Glue(CRLF + second + CRLF, third, CRLF, more);
    TakesThird(second, third, more, end);
  }

  lemma FrontIsTaken(lines: seq<string>, more: string, end: End)
    requires lines != [] && NoCr(lines) && Front(lines) > 0
    ensures var p := lines[..Front(lines)]; LineStart(Lines(p) + more, end) == Then(Lines(p), LineStart(more, end))
  {
    var p := lines[..Front(lines)];
    if |p| == 1 {
      assert p == [lines[0]];
      FirstIsTaken(lines[0], more, end);
    } else if |p| == 2 {
      assert p == ["", lines[1]];
      TwoAreTaken(lines[1], more, end);
    } else {
      assert p == ["", lines[1], lines[2]];
      ThreeAreTaken(lines[1], lines[2], more, end);
    }
  }

  /** An empty line alone takes the OK with it. */
  lemma LastIsEmpty(tail: string, end: End)
    ensures LineStart(Lines([""]) + OKS + tail, end) == Then(Lines([""]) + OKS, LineStart(tail, end))
  {
    ThreeAreTaken("", "OK", tail, end);
    assert [""] + ["", "OK"] == ["", "", "OK"];
    LinesJoined([""], ["", "OK"]);
    TwoLines("", "OK");
    assert "" + CRLF + "OK" + CRLF == OKS;
  }

  /** One that is empty or O behind it takes the empty line before the OK. */
  lemma LastTwo(second: string, tail: string, end: End)
    requires second == "" || second == "O"
    ensures var lines := ["", second];
            LineStart(Lines(lines) + OKS + tail, end) == Then(Lines(lines) + OKS, LineStart(tail, end))
  {
    var p, more := ["", second, ""], "OK" + CRLF + tail;
    ThreeAreTaken(second, "", more, end);
    LineStartsNoOk("OK", tail, end);
    ThenThen(Lines(p), "OK" + CRLF, LineStart(tail, end));
    TwoLines("", second);
    ThreeLines("", second, "");
    var u := Lines(["", second]);
    assert Lines(p) == u + "" + CRLF == u + CRLF;
    OksBehind(u, tail);
  }

  lemma OksBehind(u: string, tail: string)
    ensures (u + CRLF) + ("OK" + CRLF + tail) == u + OKS + tail && (u + CRLF) + ("OK" + CRLF) == u + OKS
  {
    assert OKS == CRLF + ("OK" + CRLF);
    Assoc(u, CRLF, "OK" + CRLF);
    Assoc(u + CRLF, "OK" + CRLF, tail);
  }

  lemma OkAmongLines(lines: seq<string>, tail: string, end: End)
    requires |lines| >= 2 && lines[0] == "" && lines[1] == "OK"
    ensures LineStart(Lines(lines) + OKS + tail, end) == Scan(1, "", Lines(lines[2..]) + OKS + tail)
  {
    var more := Lines(lines[2..]) + OKS + tail;
    assert lines == ["", "OK"] + lines[2..];
    LinesJoined(["", "OK"], lines[2..]);
    TwoLines("", "OK");
    assert Lines(lines) + OKS + tail == OKS + more;
    OkRead(more, end);
  }

  /** Lines in front that the reader takes, before lines that are read as the search says. */
  lemma FrontStep(p: seq<string>, q: seq<string>, tail: string, end: End)
    requires NoCr(p + q) && p + q != [] && Front(p + q) == |p| > 0
    requires LineStart(Lines(q) + OKS + tail, end) == Outcome(q, Search(q), tail, end)
    ensures LineStart(Lines(p + q) + OKS + tail, end) == Outcome(p + q, Later(p, Search(q)), tail, end)
  {
    assert (p + q)[..|p|] == p;
    FrontIsTaken(p + q, Lines(q) + OKS + tail, end);
    LinesJoined(p, q);
    Glue(Lines(p), Lines(q), OKS, tail);
    OutcomeLater(p, q, Search(q), tail, end);
  }

  /** Any lines without a CR are read as the search says. */
  lemma {:induction false} LinesRead(lines: seq<string>, tail: string, end: End)
    requires NoCr(lines)
    ensures LineStart(Lines(lines) + OKS + tail, end) == Outcome(lines, Search(lines), tail, end)
  {
    if lines == [] {
      assert Lines(lines) + OKS == OKS;
      OkRead(tail, end);
    } else if Front(lines) > 0 {
      var p, q := lines[..Front(lines)], lines[Front(lines)..];
      assert lines == p + q;
      LinesRead(q, tail, end);
      FrontStep(p, q, tail, end);
    } else if |lines| == 1 {
      assert lines == [""];
      LastIsEmpty(tail, end);
    } else if lines[1] == "OK" {
      OkAmongLines(lines, tail, end);
    } else {
      assert lines == ["", lines[1]];
      LastTwo(lines[1], tail, end);
    }
  }

  lemma NothingButOk(tail: string, end: End)
    ensures UntilOk(OKS + tail, end) == Then(OKS, LineStart(tail, end))
  {
    var more := "OK" + CRLF + tail;
    assert OKS + tail == "" + CRLF + more;
    RestOfLine("", more, end);
    LineStartsNoOk("OK", tail, end);
    ThenThen("" + CRLF, "OK" + CRLF, LineStart(tail, end));
    assert "" + CRLF + ("OK" + CRLF) == OKS;
  }

  lemma FirstLineRead(first: string, q: seq<string>, tail: string, end: End)
    requires CR !in first && LineStart(Lines(q) + OKS + tail, end) == Outcome(q, Search(q), tail, end)
    ensures UntilOk(Lines([first] + q) + OKS + tail, end)
         == Outcome([first] + q, Later([first], Search(q)), tail, end)
  {
    OneLine(first);
    LinesJoined([first], q);
    Glue(Lines([first]), Lines(q), OKS, tail);
    RestOfLine(first, Lines(q) + OKS + tail, end);
    OutcomeLater([first], q, Search(q), tail, end);
  }

  lemma TextRead(lines: seq<string>, tail: string, end: End)
    requires NoCr(lines)
    ensures UntilOk(Lines(lines) + OKS + tail, end) == Outcome(lines, SearchText(lines), tail, end)
  {
    if lines == [] {
      assert Lines(lines) + OKS == OKS;
      NothingButOk(tail, end);
    } else {
      assert lines[..1] == [lines[0]] && lines == [lines[0]] + lines[1..];
      LinesRead(lines[1..], tail, end);
      FirstLineRead(lines[0], lines[1..], tail, end);
    }
  }

  /** Any text of lines without a CR is read to its OK and no further exactly when the search
      sees its end behind its lines. */
  lemma TextMessageEnds(lines: seq<string>, tail: string, end: End)
    requires NoCr(lines)
    ensures var r := UntilOk(Lines(lines) + OKS + tail, end);
            && (r.res == 1 && r.rest == tail <==> SearchText(lines) == Behind)
            && (SearchText(lines) == Behind ==> r.out == Lines(lines))
  {
    TextRead(lines, tail, end);
    LineStartConserved(tail, end);
  }

  function Empty(k: nat): seq<string> {
    if k == 0 then [] else [""] + Empty(k - 1)
  }

  lemma EmptyOfThree(k: nat)
    requires k >= 3
    ensures var e := Empty(k); |e| >= 3 && e[0] == e[1] == "" && e[3..] == Empty(k - 3)
  {
    assert Empty(k - 2) == [""] + Empty(k - 3);
    assert Empty(k - 1) == [""] + Empty(k - 2);
    assert Empty(k) == [""] + Empty(k - 1);
  }

  lemma FewEmpty(k: nat)
    requires k <= 2
    ensures Empty(k) == if k == 0 then [] else if k == 1 then [""] else ["", ""]
  {
    assert k > 0 ==> Empty(k) == [""] + Empty(k - 1);
    assert k > 1 ==> Empty(k - 1) == [""] + Empty(k - 2);
  }

  lemma {:induction false} EmptySearched(k: nat)
    ensures Search(Empty(k)) == if k % 3 == 0 then Behind else Nowhere
  {
    if k <= 2 {
      FewEmpty(k);
    } else {
      EmptyOfThree(k);
      EmptySearched(k - 3);
      assert Front(Empty(k)) == 3;
    }
  }

  lemma {:induction false} NonEmptySearched(lines: seq<string>, k: nat)
    requires "" !in lines
    ensures Search(lines + Empty(k)) == if k % 3 == 0 then Behind else Nowhere
  {
    if lines == [] {
      assert lines + Empty(k) == Empty(k);
      EmptySearched(k);
    } else {
      assert (lines + Empty(k))[1..] == lines[1..] + Empty(k);
      NonEmptySearched(lines[1..], k);
    }
  }

  /** So a text of non-empty lines with k empty ones behind them is read to its end exactly
      when k is a multiple of three. */
  lemma EmptyLinesByThree(lines: seq<string>, k: nat)
    requires lines != [] && "" !in lines
    ensures SearchText(lines + Empty(k)) == if k % 3 == 0 then Behind else Nowhere
  {
    assert (lines + Empty(k))[1..] == lines[1..] + Empty(k);
    NonEmptySearched(lines[1..], k);
  }

  /** Texts whose end is missed, seen, and seen too early. */
  lemma SuchTexts()
    ensures SearchText(["a", "", "O"]) == Nowhere
    ensures SearchText(["a", "", "O", ""]) == Behind
    ensures SearchText(["a", "", "OK", "b"]) == Within(["a"], ["b"])
  {
    assert ["a", "", "O"][1..] == ["", "O"];
    assert ["a", "", "O", ""][1..] == ["", "O", ""] && ["", "O", ""][3..] == [];
    assert ["a", "", "OK", "b"][1..] == ["", "OK", "b"] && ["", "OK", "b"][2..] == ["b"];
    assert ["a", "", "OK", "b"][..1] + [] == ["a"];
  }

  // ---------- the round trip ----------

  /** A message that begins with CR LF and no prompt is a result code. */
  lemma AfterCrlf(line: string, count: nat, end: End)
    requires line != "" && line[0] != '>'
    ensures Message(CRLF + line, count, end) == ResultLine(line, count, end)
  {
    var s := CRLF + line;
    assert s[1..][0] == LF && s[1..][1] == line[0] && s[1..][1..] == line;
  }

  /** The line itself. */
  lemma ResultLineRead(text: string, tail: string, end: End)
    requires Line(text)
    ensures var s := text + CRLF + tail; Then([s[0]], UntilCrlf(s[1..], end)) == Scan(1, text, tail)
  {
    DropFirst(text, CRLF, tail);
    LineRead(text[1..], tail, end);
    assert [text[0]] + text[1..] == text;
  }

  lemma ResultRead(text: string, count: nat, tail: string, end: End)
    requires Line(text) && text[0] != '>' && !(CMGR <= text)
    ensures Message(CRLF + text + CRLF + tail, count, end) == Scan(1, text, tail)
  {
    Glue(CRLF, text, CRLF, tail);
    AfterCrlf(text + CRLF + tail, count, end);
    ResultLineRead(text, tail, end);
  }

  lemma TextMessageRead(header: string, lines: seq<string>, count: nat, tail: string, end: End)
    requires Printable(TextMessage(header, lines), count)
    ensures Message(CRLF + header + CRLF + (Lines(lines) + OKS + tail), count, end)
         == Scan(1, header + CRLF + Lines(lines), tail)
  {
    var more := Lines(lines) + OKS + tail;
    Glue(CRLF, header, CRLF, more);
    assert header[0] == CMGR[0];
    AfterCrlf(header + CRLF + more, count, end);
    ResultLineRead(header, more, end);
    TextRead(lines, tail, end);
  }

  /** What a device prints is read back as one message, and nothing behind it is touched. */
  lemma MessageRead(m: Msg, count: nat, tail: string, end: End)
    requires Printable(m, count)
    ensures Message(Print(m) + tail, count, end) == Scan(1, Text(m), tail)
  {
    match m
    case Result(text) => ResultRead(text, count, tail, end);
    case Command(text) =>
      var s := text + [CR] + tail;
      assert s[0] == text[0] && s[1..] == text[1..] + [CR] + tail;
      CommandRead(text[1..], tail, end);
      assert [text[0]] + text[1..] == text;
    case Prompt =>
      var s := CRLF + "> " + tail;
      assert s[1..][0] == LF && s[1..][1] == '>' && s[1..][2] == ' ' && s[1..][3..] == tail;
    case TextMessage(header, lines) =>
      TextMessageRead(header, lines, count, tail, end);
      Glue(CRLF + header + CRLF, Lines(lines), OKS, tail);
  }

  /** n calls of rfcomm_read: the buffers they fill, up to the first failure, and what is
      left to read. */
  function ReadMany(s: string, n: nat, count: nat, end: End): (seq<string>, string)
    decreases n
  {
    if n == 0 then ([], s)
    else
      var r := Message(s, count, end);
      if r.res != 1 then ([], r.rest)
      else var more := ReadMany(r.rest, n - 1, count, end); ([Fit(r.out, count)] + more.0, more.1)
  }

  function Texts(ms: seq<Msg>, count: nat): seq<string> {
    if ms == [] then [] else [Fit(Text(ms[0]), count)] + Texts(ms[1..], count)
  }

  /** Any list of messages is read back in order, one call each, from exactly the characters
      they were printed as; a text that is longer than the buffer is cut to it. */
  lemma {:induction false} StreamRoundTrip(ms: seq<Msg>, count: nat, tail: string, end: End)
    requires forall m :: m in ms ==> Printable(m, count)
    ensures ReadMany(PrintAll(ms) + tail, |ms|, count, end) == (Texts(ms, count), tail)
  {
    if ms == [] {
      assert PrintAll(ms) + tail == tail;
    } else {
      var more := PrintAll(ms[1..]) + tail;
      StreamRoundTrip(ms[1..], count, tail, end);
      assert PrintAll(ms) + tail == Print(ms[0]) + more;
      MessageRead(ms[0], count, more, end);
    }
  }
}
