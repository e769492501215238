/** The records of a compiled script, byte by byte, and how they are sent. */
module AdsiDownload {
  import opened Basics
  import opened AdsiScript
  import opened AdsiLinks
  import opened AdsiSteps
  import opened AdsiResults
  import opened AdsiBudget
  import opened AdsiPacking

  function Text(s: string): (b: seq<int>)
    ensures |b| == |s|
  {
    seq(|s|, i requires 0 <= i < |s| => s[i] as int % 256)
  }

  function KeyByte(k: KeyRef): int {
    match k
    case Id(n) => n
    case Unset => 0
  }

  function KeyBytes(keys: seq<KeyRef>): (b: seq<int>)
    ensures |b| == |keys|
  {
    seq(|keys|, i requires 0 <= i < |keys| => KeyByte(keys[i]))
  }

  /** The bytes of an instruction. */
  function Bytes(i: Instr): (b: seq<int>)
    ensures |b| == Size(i)
  {
    match i
    case Plain(bytes) => bytes
    case ShowKeys(op, flag, keys) => [op, (flag % 8) * 8 + |keys| % 8] + KeyBytes(keys)
    case CallSub(n) => [0x9d, n]
    case OnEvent(event, n, states) => [8, event, n % 128 + 128] + states
    case IfHeader(event, count) => [1, event, count]
    case IfGoto(event, n) => [8, event, n]
  }

  function Codes(q: seq<Instr>): (b: seq<int>)
    ensures |b| == Sizes(q, 0)
  {
    if q == [] then [] else Codes(q[..|q| - 1]) + Bytes(q[|q| - 1])
  }

  function KeyRecord(e: Entry<Key>): (r: Record)
    ensures |r| == |e.item.fullName| + |e.item.shortName| + 5 + Sizes(e.item.codes, 0)
    ensures r[1] == e.item.length
  {
    [128, e.item.length as int, e.id] + Text(e.item.fullName) + [0xff] + Text(e.item.shortName) + [0xff]
    + Codes(e.item.codes)
  }

  function DisplayHeader(e: Entry<Display>): (b: seq<int>)
    ensures |b| == 5
    ensures e.item.header ==> b[1] == e.item.length
  {
    if e.item.header
    then [129, e.item.length as int, (e.item.justify % 4) * 64 + e.id % 64, if e.item.wrap then 0x80 else 0, 0xff]
    else [0, 0, 0, 0, 0]
  }

  function DisplayRecord(e: Entry<Display>): (r: Record)
    requires DisplayOk(e.item)
    ensures |r| == e.item.datalen
    ensures e.item.header ==> r[1] == e.item.length
  {
    if e.item.datalen == 0 then []
    else DisplayHeader(e) + Text(e.item.column1) + [0xff] + Text(e.item.column2)
  }

  function KeyRecords(s: Script): (rs: seq<Record>)
    ensures |rs| == |s.keys|
  {
    seq(|s.keys|, i requires 0 <= i < |s.keys| => KeyRecord(s.keys[i]))
  }

  function DisplayRecords(s: Script): (rs: seq<Record>)
    requires DisplaysOk(s)
    ensures |rs| == |s.displays|
  {
    seq(|s.displays|, i requires 0 <= i < |s.displays| => DisplayRecord(s.displays[i]))
  }

  lemma KeyRecordFits(lines: seq<Line>, i: nat)
    requires Compile(lines).Some? && i < |Compile(lines).value.keys|
    ensures var r := KeyRecord(Compile(lines).value.keys[i]); |r| <= 50 && r[1] == |r| - 2
  {
    RecordsAreShort(lines);
  }

  /** The soft keys of every script that compiles are sent in messages within the limit, none
      of them empty and no more of them than any split needs; every record has at most 50
      bytes, and its second byte counts those behind it. */
  lemma KeysAreSent(lines: seq<Line>, split: seq<seq<Record>>)
    requires Compile(lines).Some?
    ensures var rs := KeyRecords(Compile(lines).value);
            && (forall i :: 0 <= i < |rs| ==> 2 <= |rs[i]| <= 50 && rs[i][1] == |rs[i]| - 2)
            && RunsFit(Sent(rs)) && NoneEmpty(Sent(rs)) && Concat(Sent(rs)) == rs
            && (Split(rs, split) ==> |Sent(rs)| <= |split|)
  {
    var rs := KeyRecords(Compile(lines).value);
    forall i | 0 <= i < |rs| ensures 2 <= |rs[i]| <= 50 && rs[i][1] == |rs[i]| - 2 {
      KeyRecordFits(lines, i);
    }
    MessagesFitIffRecordsDo(rs);
    SentKeepsOrder(rs);
    AllSent(rs);
    if Split(rs, split) {
      FewestMessages(rs, split);
    }
  }

  lemma AllSent(rs: seq<Record>)
    requires forall i :: 0 <= i < |rs| ==> rs[i] != []
    ensures Concat(Sent(rs)) == rs
  {
    SentKeepsOrder(rs);
    assert rs != [] ==> rs[|rs| - 1] != [];
    assert rs[..|rs|] == rs;
  }

  lemma DisplayRecordFits(lines: seq<Line>, i: nat)
    requires Compile(lines).Some? && i < |Compile(lines).value.displays| && DisplaysOk(Compile(lines).value)
    ensures var e := Compile(lines).value.displays[i];
            var r := DisplayRecord(e);
            |r| <= 46 && (e.item.header ==> r[1] == |r| - 2)
  {
    RecordsAreShort(lines);
  }

  /** The records are sent in order; only empty ones at the end may stay unsent. */
  predicate InOrder(rs: seq<Record>) {
    var n := |Concat(Sent(rs))|;
    n <= |rs| && Concat(Sent(rs)) == rs[..n] && forall i :: n <= i < |rs| ==> rs[i] == []
  }

  /** The same for displays, whose records have at most 46 bytes; a display without a text has
      an empty record, and one whose qualifiers are wrong has no header. */
  lemma DisplaysAreSent(lines: seq<Line>, split: seq<seq<Record>>)
    requires Compile(lines).Some?
    ensures DisplaysOk(Compile(lines).value)
    ensures var s := Compile(lines).value; var rs := DisplayRecords(s);
            && (forall i :: 0 <= i < |rs| ==>
                  |rs[i]| <= 46 && (s.displays[i].item.header ==> |rs[i]| >= 2 && rs[i][1] == |rs[i]| - 2))
            && RunsFit(Sent(rs)) && NoneEmpty(Sent(rs)) && InOrder(rs)
            && (Split(rs, split) ==> |Sent(rs)| <= |split|)
  {
    AfterKeeps(lines);
    var s := Compile(lines).value;
    var rs := DisplayRecords(s);
    forall i | 0 <= i < |rs|
      ensures |rs[i]| <= 46 && (s.displays[i].item.header ==> |rs[i]| >= 2 && rs[i][1] == |rs[i]| - 2)
    {
      DisplayRecordFits(lines, i);
    }
    MessagesFitIffRecordsDo(rs);
    SentKeepsOrder(rs);
    if Split(rs, split) {
      FewestMessages(rs, split);
    }
  }

  // ---------- subscripts ----------

  /** The instructions of a subscript, each with a separator behind it. */
  function Separated(q: seq<Instr>): (b: seq<int>)
    ensures |b| == Sizes(q, 1)
  {
    if q == [] then [] else Separated(q[..|q| - 1]) + Bytes(q[|q| - 1]) + [0xff]
  }

  /** Only the last subscript says that no other follows; all but main are labelled. */
  function SubRecord(e: Entry<Sub>, last: bool): (r: Record)
    ensures |r| == HeaderLen(e.id) + Sizes(e.item.instrs, 1)
    ensures r[1] == e.item.length && (e.id != 0 ==> r[4] == e.id && r[5] == e.item.storedCount)
  {
    [130, e.item.length as int, if last then 0x80 else 0]
    + (if e.id != 0 then [9, e.id, e.item.storedCount as int, 0xff] else [])
    + Separated(e.item.instrs)
  }

  function SubRecords(s: Script): (rs: seq<Record>)
    ensures |rs| == |s.subs|
  {
    seq(|s.subs|, i requires 0 <= i < |s.subs| => SubRecord(s.subs[i], i == |s.subs| - 1))
  }

  /** The second byte of a record counts those behind it. */
  predicate Counted(r: Record) {
    |r| >= 2 && r[1] == (|r| - 2) % 256
  }

  /** The bytes behind the second happen to be none modulo 256. */
  predicate NoneBehind(r: Record) {
    (|r| - 2) % 256 == 0
  }

  /** A record is as long as the compiler counted, and says so unless its IF is open. */
  predicate SubRecordOk(s: Script, i: nat, r: Record)
    requires i < |s.subs|
  {
    && |r| == s.subs[i].item.datalen >= 3
    && (Counted(r) <==> !(s.mode == InIf && i == s.sub) || NoneBehind(r))
  }

  lemma RecordCounts(e: Entry<Sub>, r: Record, open: bool)
    requires |r| == e.item.datalen >= 3 && r[1] == e.item.length
    requires if open then e.item.length == 0 else LengthStored(e)
    ensures Counted(r) <==> !open || NoneBehind(r)
  {
  }

  lemma SubRecordIsOk(lines: seq<Line>, s: Script, i: nat)
    requires Compile(lines) == Some(s) && i < |s.subs|
    ensures SubRecordOk(s, i, SubRecord(s.subs[i], i == |s.subs| - 1))
  {
    SubsAreWellFormed(lines, i);
    RecordCounts(s.subs[i], SubRecord(s.subs[i], i == |s.subs| - 1), s.mode == InIf && i == s.sub);
  }

  predicate SubsFit(s: Script) {
    forall i :: 0 <= i < |s.subs| ==> s.subs[i].item.datalen <= LIMIT
  }

  predicate SubRecordsOk(s: Script, rs: seq<Record>) {
    |rs| == |s.subs| && forall i :: 0 <= i < |rs| ==> SubRecordOk(s, i, rs[i])
  }

  lemma SubRecordsFit(s: Script, rs: seq<Record>)
    requires SubRecordsOk(s, rs)
    ensures AllFit(rs) <==> SubsFit(s)
  {
    forall i | 0 <= i < |rs| ensures |rs[i]| == s.subs[i].item.datalen {
      assert SubRecordOk(s, i, rs[i]);
    }
    if AllFit(rs) {
      forall i | 0 <= i < |s.subs| ensures s.subs[i].item.datalen <= LIMIT {
        assert |rs[i]| <= LIMIT;
      }
    }
  }

  lemma SubRecordsAreOk(lines: seq<Line>)
    requires Compile(lines).Some?
    ensures var s := Compile(lines).value; SubRecordsOk(s, SubRecords(s))
  {
    var s := Compile(lines).value;
    forall i | 0 <= i < |s.subs| ensures SubRecordOk(s, i, SubRecords(s)[i]) {
      SubRecordIsOk(lines, s, i);
    }
  }

  /** The subscripts of every script that compiles are all sent, in order. The messages keep
      the limit if and only if no subscript has more than 253 bytes, although the compiler
      lets one have 255 and main 1600; and the second byte of a record counts those behind it
      unless the file ended inside of its IF. */
  lemma SubsAreSent(lines: seq<Line>, split: seq<seq<Record>>)
    requires Compile(lines).Some?
    ensures var s := Compile(lines).value; var rs := SubRecords(s);
            && SubRecordsOk(s, rs)
            && (RunsFit(Sent(rs)) <==> SubsFit(s))
            && Concat(Sent(rs)) == rs
            && (Split(rs, split) ==> |Sent(rs)| <= |split|)
  {
    var s := Compile(lines).value;
    var rs := SubRecords(s);
    SubRecordsAreOk(lines);
    SubRecordsFit(s, rs);
    MessagesFitIffRecordsDo(rs);
    AllSent(rs);
    if Split(rs, split) {
      FewestMessages(rs, split);
    }
  }

  // ---------- the bytes at their places ----------

  /** The bytes of the instructions. */
  lemma InstructionBytes(op: Byte, flag: nat, a: nat, b: nat, event: nat, sub: nat, count: nat, bytes: seq<Byte>)
    requires flag < 8 && sub < 128
    ensures Bytes(Plain(bytes)) == bytes
    ensures Bytes(ShowKeys(op, flag, [Id(a), Unset, Id(b)])) == [op, 8 * flag + 3, a, 0, b]
    ensures Bytes(CallSub(sub)) == [0x9d, sub] && Bytes(OnEvent(event, sub, [0, 0])) == [8, event, 0x80 + sub, 0, 0]
    ensures Bytes(IfHeader(event, count)) == [1, event, count] && Bytes(IfGoto(event, sub)) == [8, event, sub]
  {
    var keys := [Id(a), Unset, Id(b)];
    assert KeyBytes(keys) == [a, 0, b];
  }

  /** The codes of a soft key follow one another, and each instruction of a subscript has a separator
      behind it. */
  lemma InstructionsInARow(q: seq<Instr>, i: Instr)
    ensures Codes([]) == [] && Codes(q + [i]) == Codes(q) + Bytes(i)
    ensures Separated([]) == [] && Separated(q + [i]) == Separated(q) + Bytes(i) + [255]
  {
    assert (q + [i])[..|q|] == q;
  }

  /** The record of a soft key: kind 128, length and number, then the two names with a separator behind
      each, then the codes. */
  lemma KeyRecordAt(e: Entry<Key>, i: nat)
    ensures var k, r := e.item, KeyRecord(e); var n, m := |k.fullName|, |k.shortName|;
            && r[0] == 128 && r[1] == k.length && r[2] == e.id && r[3 + n] == 255 && r[4 + n + m] == 255
            && (i < n ==> r[3 + i] == k.fullName[i] as int % 256)
            && (i < m ==> r[4 + n + i] == k.shortName[i] as int % 256)
            && r[5 + n + m..] == Codes(k.codes)
  {
    assert KeyRecord(e)[5 + |e.item.fullName| + |e.item.shortName|..] == Codes(e.item.codes);
  }

  /** The record of a display: kind 129, length, justification and number, the wrap flag and a separator,
      then the two columns with a separator between them. */
  lemma DisplayRecordAt(e: Entry<Display>, i: nat)
    requires DisplayOk(e.item) && e.item.datalen > 0 && e.item.justify < 4 && e.id < 64
    ensures var d, r := e.item, DisplayRecord(e); var n := |d.column1|;
            && (d.header ==> r[..5] == [129, d.length as int, 64 * d.justify + e.id, if d.wrap then 128 else 0, 255])
            && (!d.header ==> r[..5] == [0, 0, 0, 0, 0])
            && (i < n ==> r[5 + i] == d.column1[i] as int % 256)
            && r[5 + n] == 255
            && (i < |d.column2| ==> r[6 + n + i] == d.column2[i] as int % 256)
  {
    assert DisplayRecord(e)[..5] == DisplayHeader(e);
  }

  /** The record of a subscript: kind 130, length, and 128 for the last one; a label with number and
      count for all but main; and the instructions. */
  lemma SubRecordAt(e: Entry<Sub>, last: bool)
    ensures var r := SubRecord(e, last);
            && r[..3] == [130, e.item.length as int, if last then 128 else 0]
            && (e.id == 0 ==> r[3..] == Separated(e.item.instrs))
            && (e.id != 0 ==> r[3..7] == [9, e.id, e.item.storedCount as int, 255]
                              && r[7..] == Separated(e.item.instrs))
  {
    var r := SubRecord(e, last);
    assert r[..3] == [130, e.item.length as int, if last then 128 else 0];
    if e.id == 0 {
      assert r[3..] == Separated(e.item.instrs);
    } else {
      assert r[7..] == Separated(e.item.instrs);
    }
  }

  /** Each table is sent in its order, and only its last subscript says that it is the last. */
  lemma RecordsInOrder(s: Script, i: nat)
    ensures i < |s.keys| ==> KeyRecords(s)[i] == KeyRecord(s.keys[i])
    ensures i < |s.subs| ==> SubRecords(s)[i] == SubRecord(s.subs[i], i + 1 == |s.subs|)
    ensures DisplaysOk(s) && i < |s.displays| ==> DisplayRecords(s)[i] == DisplayRecord(s.displays[i])
  {
  }

  // ---------- a subscript that does not fit ----------

  /** A line with a command without arguments. */
  predicate IsSimple(line: Line) {
    && line.tokens != []
    && var c := CommandByName(SUB_COMMANDS, line.tokens[0]);
       c.Some? && c.value.args == NoArgs
  }

  lemma SimpleLine(s: Script, line: Line, n: nat)
    requires s.mode == InSub && MainHas(s, n) && IsSimple(line) && n + 2 <= MAX_MAIN_LEN
    ensures Process(s, line).mode == InSub && MainHas(Process(s, line), n + 2)
  {
    var i := Plain([CommandByName(SUB_COMMANDS, line.tokens[0]).value.id]);
    assert Size(i) == 1;
    assert Process(s, line) == StoreInstr(s, i).s;
  }

  lemma SimpleAddsTwo(lines: seq<Line>, line: Line, n: nat)
    requires OpenMain(lines, n) && IsSimple(line) && n + 2 <= MAX_MAIN_LEN
    ensures OpenMain(lines + [line], n + 2)
  {
    AfterPush(lines, line);
    SimpleLine(After(lines), line, n);
  }

  lemma SimpleLinesAddUp(lines: seq<Line>, line: Line, n: nat, k: nat)
    requires OpenMain(lines, n) && IsSimple(line) && n + 2 * k <= MAX_MAIN_LEN
    ensures OpenMain(lines + Times(line, k), n + 2 * k)
  {
    var has := (l: seq<Line>, m: nat) => OpenMain(l, m);
    forall l, m: nat | has(l, m) && m + 2 <= MAX_MAIN_LEN ensures has(l + [line], m + 2) {
      SimpleAddsTwo(l, line, m);
    }
    AddsUp(has, lines, line, n, 2, MAX_MAIN_LEN, k);
  }

  lemma FitsByLength(file: seq<Line>, n: nat)
    requires Compile(file).Some? && MainHas(Compile(file).value, n)
    ensures RunsFit(Sent(SubRecords(Compile(file).value))) <==> n <= LIMIT
  {
    SubsAreSent(file, []);
  }

  /** A main subscript of k simple commands, for the 798 of them that there is space for at most,
      compiles to 3 + 2 * k bytes and fits a message exactly up to k = 125. */
  lemma SimpleMainFits(main: Line, line: Line, end: Line, k: nat)
    requires IsSubMain(main) && IsSimple(line) && IsEndSub(end) && k <= 798
    ensures var r := Compile([main] + Times(line, k) + [end]);
            && r.Some? && |r.value.subs| == 1 && r.value.subs[0].item.datalen == 3 + 2 * k
            && (RunsFit(Sent(SubRecords(r.value))) <==> k <= 125)
  {
    var lines := [main];
    MainIsOpen(main);
    SimpleLinesAddUp(lines, line, 3, k);
    MainCompiles(lines + Times(line, k), end, 3 + 2 * k);
    FitsByLength(lines + Times(line, k) + [end], 3 + 2 * k);
  }

  lemma ClearIsSimple()
    ensures IsSimple(Line(["CLEAR"], []))
  {
    var name := "CLEAR";
    assert !Same(SUB_COMMANDS[0].name, name) && !Same(SUB_COMMANDS[1].name, name) && !Same(SUB_COMMANDS[2].name, name);
    assert SUB_COMMANDS[1..][1..][1..][0] == SUB_COMMANDS[3];
  }
}
