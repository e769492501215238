/**
 The indicators of a phone (CIND and CIEV, section 4.2 of the Bluetooth Hands-Free Profile
 1.6): the list of names is parsed once, the list of values afterwards, and both must agree
 on which number an indicator has.
 */
module CindParser {
  import opened Basics

  datatype Kind = Service | Call | CallSetup | CallHeld | Signal | Roam | BattChg | Unknown

  /** The indicator that a name stands for; call setup has a non-standard second name. */
  function KindOf(name: string): Kind {
    if name == "service" then Service
    else if name == "call" then Call
    else if name == "callsetup" then CallSetup
    else if name == "call_setup" then CallSetup
    else if name == "callheld" then CallHeld
    else if name == "signal" then Signal
    else if name == "roam" then Roam
    else if name == "battchg" then BattChg
    else Unknown
  }

  /** The length of the index and state arrays, and the size in bytes of an array of so
      many ints, which the parser of the names takes for its length. */
  const SLOTS := 16
  const SLOT_BYTES := 64

  /** What the parser of the names stores.  `index` holds the slots it wrote, and `numbers`
      the number of each kind, where a kind that is missing has number 0. */
  datatype Names = Names(index: map<nat, Kind>, numbers: map<Kind, nat>, nocallsetup: bool)

  function Number(n: Names, k: Kind): nat {
    if k in n.numbers then n.numbers[k] else 0
  }

  function StoreName(n: Names, group: nat, name: string): Names {
    if group >= SLOT_BYTES then n
    else
      var k := KindOf(name);
      var n' := n.(index := n.index[group := k]);
      if k.Unknown? then n'
      else n'.(numbers := n.numbers[k := group], nocallsetup := if k.CallSetup? then false else n.nocallsetup)
  }

  // ---------- the parser of the names ----------

  /** The parser between two characters: the state of its loop, the number of the group and
      the name of the group as far as it is read. */
  datatype TestState = TestState(state: nat, group: nat, name: string, names: Names)

  function TestStep(p: TestState, c: char): TestState {
    match p.state
    case 0 => if c == '(' then p.(state := 1, group := p.group + 1) else p
    case 1 => if c == '"' then p.(state := 2) else p
    case 2 => p.(state := 3, name := [c])
    case 3 => if c == '"' then p.(state := 4) else p.(name := p.name + [c])
    case 4 => if c == '(' then p.(state := 5) else p
    case 5 => p.(state := 6)
    case 6 => if c == ')' then p.(state := 7) else p
    case 7 => p.(state := 0, names := StoreName(p.names, p.group, p.name))
    case _ => p
  }

  function TestRun(p: TestState, s: string): TestState
    decreases |s|
  {
    if s == "" then p else TestRun(TestStep(p, s[0]), s[1..])
  }

  lemma {:induction false} TestRunAppend(p: TestState, a: string, b: string)
    ensures TestRun(p, a + b) == TestRun(TestRun(p, a), b)
    decreases |a|
  {
    if a == "" {
      assert a + b == b;
    } else {
      assert (a + b)[1..] == a[1..] + b;
      TestRunAppend(TestStep(p, a[0]), a[1..], b);
    }
  }

  // ---------- the parser of the values ----------

  predicate Digit(c: char) {
    '0' <= c <= '9'
  }

  /** The digits that a text starts with, as a number behind n. */
  function Digits(s: string, n: nat): nat
    decreases |s|
  {
    if s == "" || !Digit(s[0]) then n else Digits(s[1..], 10 * n + (s[0] as int - '0' as int))
  }

  /** A decimal conversion of a text: white space, a sign and digits. */
  function ScanInt(s: string): Option<int>
    decreases |s|
  {
    if s == "" then None
    else if s[0] == ' ' then ScanInt(s[1..])
    else if Digit(s[0]) then Some(Digits(s, 0))
    else if (s[0] == '-' || s[0] == '+') && |s| > 1 && Digit(s[1]) then
      Some(if s[0] == '-' then -(Digits(s[1..], 0) as int) else Digits(s[1..], 0))
    else None
  }

  function StoreValue(slots: seq<int>, group: nat, text: string): seq<int> {
    if group >= |slots| || ScanInt(text).None? then slots else slots[group := ScanInt(text).value]
  }

  datatype ReadState = ReadState(state: nat, group: nat, text: string, slots: seq<int>)

  function ReadStep(p: ReadState, c: char): ReadState {
    match p.state
    case 0 => if c == ' ' then p.(state := 1, group := p.group + 1) else p
    case 1 => p.(state := 2, text := [c])
    case 2 =>
      if c == ',' then p.(state := 1, group := p.group + 1, slots := StoreValue(p.slots, p.group, p.text))
      else p.(text := p.text + [c])
    case _ => p
  }

  function ReadRun(p: ReadState, s: string): ReadState
    decreases |s|
  {
    if s == "" then p else ReadRun(ReadStep(p, s[0]), s[1..])
  }

  function ReadEnd(p: ReadState): seq<int> {
    if p.state == 2 then StoreValue(p.slots, p.group, p.text) else p.slots
  }

  lemma {:induction false} ReadRunAppend(p: ReadState, a: string, b: string)
    ensures ReadRun(p, a + b) == ReadRun(ReadRun(p, a), b)
    decreases |a|
  {
    if a == "" {
      assert a + b == b;
    } else {
      assert (a + b)[1..] == a[1..] + b;
      ReadRunAppend(ReadStep(p, a[0]), a[1..], b);
    }
  }

  /** The kind that a report with number i is about, when the number is in range and named. */
  function Told(n: Names, i: int): Option<Kind> {
    if 0 <= i < SLOTS && i in n.index then Some(n.index[i]) else None
  }

  // ---------- the parsers as loops ----------

  const NO_NAMES := Names(map[], map[], false)

  class Hfp {
    var names: Names
    var slots: seq<int>

    constructor ()
      ensures names == NO_NAMES && slots == seq(SLOTS, _ => 0)
    {
      names, slots := NO_NAMES, seq(SLOTS, _ => 0);
    }

    method ParseCindTest(buf: string)
      modifies this`names
      ensures names == TestRun(TestState(0, 0, "", old(names).(nocallsetup := true)), buf).names
    {
      names := names.(nocallsetup := true);
      ghost var start := TestState(0, 0, "", names);
      var group, state, indicator := 0, 0, "";
      var i := 0;
      while i < |buf|
        invariant 0 <= i <= |buf| && 0 <= state <= 7 && group >= 0
        invariant TestRun(start, buf) == TestRun(TestState(state, group, indicator, names), buf[i..])
      {
        assert buf[i..][1..] == buf[i + 1..];
        var c := buf[i];
        if state == 0 {
          if c == '(' {
            group, state := group + 1, 1;
          }
        } else if state == 1 {
          if c == '"' {
            state := 2;
          }
        } else if state == 2 {
          indicator, state := [c], 3;
        } else if state == 3 {
          if c == '"' {
            state := 4;
          } else {
            indicator := indicator + [c];
          }
        } else if state == 4 {
          if c == '(' {
            state := 5;
          }
        } else if state == 5 {
          state := 6;
        } else if state == 6 {
          if c == ')' {
            state := 7;
          }
        } else {
          names := StoreName(names, group, indicator);
          state := 0;
        }
        i := i + 1;
      }
    }

    method ParseCind(buf: string)
      modifies this`slots
      ensures slots == ReadEnd(ReadRun(ReadState(0, 0, "", old(slots)), buf))
    {
      ghost var start := ReadState(0, 0, "", slots);
      var group, state, indicator := 0, 0, "";
      var i := 0;
      while i < |buf|
        invariant 0 <= i <= |buf| && 0 <= state <= 2 && group >= 0
        invariant ReadRun(start, buf) == ReadRun(ReadState(state, group, indicator, slots), buf[i..])
      {
        assert buf[i..][1..] == buf[i + 1..];
        var c := buf[i];
        if state == 0 {
          if c == ' ' {
            group, state := group + 1, 1;
          }
        } else if state == 1 {
          indicator, state := [c], 2;
        } else if c == ',' {
          slots := StoreValue(slots, group, indicator);
          group, state := group + 1, 1;
        } else {
          indicator := indicator + [c];
        }
        i := i + 1;
      }
      if state == 2 {
        slots := StoreValue(slots, group, indicator);
      }
    }

    /** A changed value of indicator i; the answer is the kind of the indicator, or None when
        the number is out of range or was never named. */
    method HandleCiev(i: int, value: int) returns (kind: Option<Kind>)
      requires |slots| == SLOTS
      modifies this`slots
      ensures slots == if 0 <= i < SLOTS then old(slots)[i := value] else old(slots)
      ensures kind == if 0 <= i < 16 && i in names.index then Some(names.index[i]) else None
    {
      if i < 0 || i >= SLOTS {
        return None;
      }
      slots := slots[i := value];
      kind := if i in names.index then Some(names.index[i]) else None;
    }
  }

  /** Whether the phone has service, for a device that is a phone.  A phone that does not
      report service is taken to have it. */
  predicate HasService(n: Names, slots: seq<int>)
    requires Number(n, Service) < |slots|
  {
    Number(n, Service) == 0 || slots[Number(n, Service)] == 1
  }

  predicate CallActive(n: Names, slots: seq<int>)
    requires Number(n, Call) < |slots|
  {
    slots[Number(n, Call)] != 0
  }

  // ---------- what a phone prints ----------

  datatype Indicator = Indicator(name: string, range: string)

  predicate Printable(x: Indicator) {
    x.name != "" && '"' !in x.name[1..] && x.range != "" && ')' !in x.range[1..]
  }

  function PrintName(x: Indicator): string {
    "(\"" + x.name + "\",(" + x.range + "))"
  }

  function PrintNames(xs: seq<Indicator>): string {
    if xs == [] then "" else PrintName(xs[0]) + (if |xs| > 1 then "," else "") + PrintNames(xs[1..])
  }

  function PrintNat(n: nat): string {
    var digit := [(n % 10 + '0' as int) as char];
    if n < 10 then digit else PrintNat(n / 10) + digit
  }

  function PrintValues(vs: seq<nat>): string {
    if vs == [] then "" else PrintNat(vs[0]) + (if |vs| > 1 then "," else "") + PrintValues(vs[1..])
  }

  const CIND: string := "+CIND: "

  // ---------- reading the names back ----------

  /** All names stored, the first one as number g + 1. */
  function StoreNames(n: Names, g: nat, xs: seq<Indicator>): Names
    decreases |xs|
  {
    if xs == [] then n else StoreNames(StoreName(n, g + 1, xs[0].name), g + 1, xs[1..])
  }

  lemma {:induction false} ReadName(p: TestState, s: string)
    requires p.state == 3 && '"' !in s
    ensures TestRun(p, s) == p.(name := p.name + s)
    decreases |s|
  {
    if s == "" {
      assert p.name + s == p.name;
    } else {
      ReadName(TestStep(p, s[0]), s[1..]);
      assert p.name + s == p.name + [s[0]] + s[1..];
    }
  }

  lemma {:induction false} ReadRange(p: TestState, s: string)
    requires p.state == 6 && ')' !in s
    ensures TestRun(p, s) == p
    decreases |s|
  {
    if s != "" {
      ReadRange(TestStep(p, s[0]), s[1..]);
    }
  }

  lemma TestRunCons(p: TestState, c: char, s: string)
    ensures TestRun(p, [c] + s) == TestRun(TestStep(p, c), s)
  {
    assert ([c] + s)[1..] == s;
  }

  /** One printed name takes the parser through all its states and back to the first. */
  lemma ReadOneName(p: TestState, x: Indicator)
    requires Printable(x) && p.state == 0
    ensures TestRun(p, PrintName(x))
         == TestState(0, p.group + 1, x.name, StoreName(p.names, p.group + 1, x.name))
  {
    var rest := x.name[1..] + RangePart(x);
    assert PrintName(x) == ['('] + (['"'] + ([x.name[0]] + rest));
    TestRunCons(p, '(', ['"'] + ([x.name[0]] + rest));
    TestRunCons(TestStep(p, '('), '"', [x.name[0]] + rest);
    var p2 := TestStep(TestStep(p, '('), '"');
    TestRunCons(p2, x.name[0], rest);
    var p3 := TestStep(p2, x.name[0]);
    TestRunAppend(p3, x.name[1..], RangePart(x));
    ReadName(p3, x.name[1..]);
    assert [x.name[0]] + x.name[1..] == x.name;
    ReadRangePart(p3.(name := x.name), x);
  }

  function RangePart(x: Indicator): string {
    "\",(" + x.range + "))"
  }

  lemma ReadRangePart(p: TestState, x: Indicator)
    requires Printable(x) && p.state == 3
    ensures TestRun(p, RangePart(x)) == p.(state := 0, names := StoreName(p.names, p.group, p.name))
  {
    var rest := x.range[1..] + "))";
    assert RangePart(x) == ['"'] + ([','] + (['('] + ([x.range[0]] + rest)));
    TestRunCons(p, '"', [','] + (['('] + ([x.range[0]] + rest)));
    var p4 := p.(state := 4);
    TestRunCons(p4, ',', ['('] + ([x.range[0]] + rest));
    TestRunCons(p4, '(', [x.range[0]] + rest);
    TestRunCons(p.(state := 5), x.range[0], rest);
    var p6 := p.(state := 6);
    TestRunAppend(p6, x.range[1..], "))");
    ReadRange(p6, x.range[1..]);
    assert "))" == [')'] + ([')'] + "");
    TestRunCons(p6, ')', [')'] + "");
    TestRunCons(p.(state := 7), ')', "");
  }

  lemma {:induction false} SkipToQuote(p: TestState, s: string)
    requires p.state == 1 && '"' !in s
    ensures TestRun(p, s) == p
    decreases |s|
  {
    if s != "" {
      SkipToQuote(TestStep(p, s[0]), s[1..]);
    }
  }

  lemma {:induction false} SkipToRange(p: TestState, s: string)
    requires p.state == 4 && '(' !in s
    ensures TestRun(p, s) == p
    decreases |s|
  {
    if s != "" {
      SkipToRange(TestStep(p, s[0]), s[1..]);
    }
  }

  lemma NameIsReached(p: TestState, a: string, tail: string)
    requires p.state == 0 && '"' !in a
    ensures TestRun(p, ['('] + (a + (['"'] + tail))) == TestRun(p.(state := 2, group := p.group + 1), tail)
  {
    var p1 := p.(state := 1, group := p.group + 1);
    TestRunCons(p, '(', a + (['"'] + tail));
    TestRunAppend(p1, a, ['"'] + tail);
    SkipToQuote(p1, a);
    TestRunCons(p1, '"', tail);
  }

  lemma NameIsTaken(p: TestState, name: string, tail: string)
    requires p.state == 2 && name != "" && '"' !in name[1..]
    ensures TestRun(p, name + tail) == TestRun(p.(state := 3, name := name), tail)
  {
    TestRunAppend(p, name, tail);
    assert name == [name[0]] + name[1..];
    TestRunCons(p, name[0], name[1..]);
    ReadName(p.(state := 3, name := [name[0]]), name[1..]);
  }

  /** The parser takes no offence at other characters before a name and between it and its range,
      nor at the character behind the range. */
  lemma LooseNameIsRead(p: TestState, a: string, name: string, b: string, range: string, c: char, behind: string)
    requires p.state == 0 && '"' !in a && '(' !in b
    requires name != "" && '"' !in name[1..] && range != "" && ')' !in range[1..]
    requires behind == ['"'] + (b + (['('] + (range + ([')'] + [c]))))
    ensures TestRun(p, ['('] + (a + (['"'] + (name + behind))))
         == TestState(0, p.group + 1, name, StoreName(p.names, p.group + 1, name))
  {
    var p2 := p.(state := 2, group := p.group + 1);
    NameIsReached(p, a, name + behind);
    NameIsTaken(p2, name, behind);
    RangeIsSkipped(p2.(state := 3, name := name), b, range, c);
  }

  lemma RangeIsSkipped(p: TestState, b: string, range: string, c: char)
    requires p.state == 3 && '(' !in b && range != "" && ')' !in range[1..]
    ensures TestRun(p, ['"'] + (b + (['('] + (range + ([')'] + [c])))))
         == p.(state := 0, names := StoreName(p.names, p.group, p.name))
  {
    var s8 := [')'] + [c];
    var s7 := ['('] + (range + s8);
    TestRunCons(p, '"', b + s7);
    var p4 := p.(state := 4);
    TestRunAppend(p4, b, s7);
    SkipToRange(p4, b);
    TestRunCons(p4, '(', range + s8);
    TestRunAppend(p.(state := 5), range, s8);
    assert range == [range[0]] + range[1..];
    TestRunCons(p.(state := 5), range[0], range[1..]);
    ReadRange(p.(state := 6), range[1..]);
    TestRunCons(p.(state := 6), ')', [c]);
    TestRunCons(p.(state := 7), c, "");
  }

  lemma {:induction false} ReadNames(p: TestState, xs: seq<Indicator>)
    requires p.state == 0 && forall x :: x in xs ==> Printable(x)
    ensures TestRun(p, PrintNames(xs)).names == StoreNames(p.names, p.group, xs)
    decreases |xs|
  {
    if xs != [] {
      var comma := if |xs| > 1 then "," else "";
      var p1 := TestState(0, p.group + 1, xs[0].name, StoreName(p.names, p.group + 1, xs[0].name));
      TestRunAppend(p, PrintName(xs[0]) + comma, PrintNames(xs[1..]));
      TestRunAppend(p, PrintName(xs[0]), comma);
      ReadOneName(p, xs[0]);
      assert TestRun(p1, comma) == p1 by {
        if |xs| > 1 {
          TestRunCons(p1, ',', "");
          assert [','] + "" == comma;
        }
      }
      ReadNames(p1, xs[1..]);
    }
  }

  /** The last number below the parser's limit that has a kind, or 0. */
  function LastNumber(xs: seq<Indicator>, g: nat, k: Kind): nat
    decreases |xs|
  {
    if xs == [] then 0
    else
      var later := LastNumber(xs[1..], g + 1, k);
      if later != 0 then later
      else if KindOf(xs[0].name) == k && g + 1 < SLOT_BYTES then g + 1 else 0
  }

  lemma {:induction false} StoredNumber(n: Names, g: nat, xs: seq<Indicator>, k: Kind)
    requires !k.Unknown?
    ensures Number(StoreNames(n, g, xs), k) == if LastNumber(xs, g, k) != 0 then LastNumber(xs, g, k) else Number(n, k)
    decreases |xs|
  {
    if xs != [] {
      StoredNumber(StoreName(n, g + 1, xs[0].name), g + 1, xs[1..], k);
    }
  }

  lemma {:induction false} LastNumberIs(xs: seq<Indicator>, g: nat, k: Kind, i: nat)
    requires i < |xs| && KindOf(xs[i].name) == k && g + i + 1 < SLOT_BYTES
    requires forall j :: i < j < |xs| ==> KindOf(xs[j].name) != k
    ensures LastNumber(xs, g, k) == g + i + 1
    decreases |xs|
  {
    if i > 0 {
      LastNumberIs(xs[1..], g + 1, k, i - 1);
    } else {
      NoNumber(xs[1..], g + 1, k);
    }
  }

  lemma {:induction false} NoNumber(xs: seq<Indicator>, g: nat, k: Kind)
    requires forall j :: 0 <= j < |xs| ==> KindOf(xs[j].name) != k
    ensures LastNumber(xs, g, k) == 0
    decreases |xs|
  {
    if xs != [] {
      NoNumber(xs[1..], g + 1, k);
    }
  }

  lemma {:induction false} StoredIndex(n: Names, g: nat, xs: seq<Indicator>, j: nat)
    ensures var m := StoreNames(n, g, xs).index;
            if g < j <= g + |xs| && j < SLOT_BYTES then j in m && m[j] == KindOf(xs[j - g - 1].name)
            else (j in m <==> j in n.index) && (j in m ==> m[j] == n.index[j])
    decreases |xs|
  {
    if xs != [] {
      StoredIndex(StoreName(n, g + 1, xs[0].name), g + 1, xs[1..], j);
    }
  }

  // ---------- reading the values back ----------

  lemma {:induction false} DigitsAppend(s: string, acc: nat, c: char)
    requires Digit(c) && forall d :: d in s ==> Digit(d)
    ensures Digits(s + [c], acc) == 10 * Digits(s, acc) + (c as int - '0' as int)
    decreases |s|
  {
    if s == "" {
      assert (s + [c])[1..] == "";
    } else {
      assert (s + [c])[1..] == s[1..] + [c];
      assert s[0] in s;
      DigitsAppend(s[1..], 10 * acc + (s[0] as int - '0' as int), c);
    }
  }

  lemma {:induction false} PrintNatDigits(n: nat)
    ensures PrintNat(n) != "" && forall d :: d in PrintNat(n) ==> Digit(d)
    ensures Digits(PrintNat(n), 0) == n
  {
    var c := (n % 10 + '0' as int) as char;
    if n >= 10 {
      PrintNatDigits(n / 10);
      DigitsAppend(PrintNat(n / 10), 0, c);
    } else {
      assert PrintNat(n)[1..] == "";
    }
  }

  lemma ScanPrinted(n: nat)
    ensures ScanInt(PrintNat(n)) == Some(n) && PrintNat(n) != "" && ',' !in PrintNat(n)
  {
    PrintNatDigits(n);
    assert PrintNat(n)[0] in PrintNat(n);
  }

  lemma {:induction false} DigitsStop(s: string, acc: nat, rest: string)
    requires forall d :: d in s ==> Digit(d)
    requires rest != "" ==> !Digit(rest[0])
    ensures Digits(s + rest, acc) == Digits(s, acc)
    decreases |s|
  {
    if s == "" {
      assert s + rest == rest;
    } else {
      assert (s + rest)[1..] == s[1..] + rest;
      assert s[0] in s;
      DigitsStop(s[1..], 10 * acc + (s[0] as int - '0' as int), rest);
    }
  }

  /** A number is read behind blanks, with or without a sign, up to the first other character. */
  lemma NumberIsRead(n: nat, rest: string)
    requires rest != "" ==> !('0' <= rest[0] <= '9')
    ensures ScanInt(PrintNat(n) + rest) == Some(n)
    ensures ScanInt("-" + PrintNat(n) + rest) == Some(0 - n as int) && ScanInt("+" + PrintNat(n) + rest) == Some(n)
  {
    PrintNatDigits(n);
    DigitsStop(PrintNat(n), 0, rest);
    var s := PrintNat(n);
    assert (s + rest)[0] == s[0] && s[0] in s;
    assert ("-" + s + rest)[1..] == s + rest && ("+" + s + rest)[1..] == s + rest;
  }

  lemma BlankIsSkipped(s: string)
    ensures ScanInt(" " + s) == ScanInt(s)
  {
    assert (" " + s)[1..] == s;
  }

  /** What begins with neither a digit, a blank nor a sign before a digit is no number. */
  lemma NoNumberIsRead(s: string)
    requires s != "" && s[0] != ' ' && !('0' <= s[0] <= '9')
    requires (s[0] == '-' || s[0] == '+') && |s| > 1 ==> !('0' <= s[1] <= '9')
    ensures ScanInt(s) == None
  {
  }

  lemma ReadRunCons(p: ReadState, c: char, s: string)
    ensures ReadRun(p, [c] + s) == ReadRun(ReadStep(p, c), s)
  {
    assert ([c] + s)[1..] == s;
  }

  lemma {:induction false} ReadText(p: ReadState, s: string)
    requires p.state == 2 && ',' !in s
    ensures ReadRun(p, s) == p.(text := p.text + s)
    decreases |s|
  {
    if s == "" {
      assert p.text + s == p.text;
    } else {
      ReadText(ReadStep(p, s[0]), s[1..]);
      assert p.text + s == p.text + [s[0]] + s[1..];
    }
  }

  lemma ReadOneValue(p: ReadState, v: nat)
    requires p.state == 1
    ensures ReadRun(p, PrintNat(v)) == p.(state := 2, text := PrintNat(v))
  {
    ScanPrinted(v);
    var s := PrintNat(v);
    assert s == [s[0]] + s[1..];
    ReadRunCons(p, s[0], s[1..]);
    ReadText(p.(state := 2, text := [s[0]]), s[1..]);
  }

  lemma ReadValueComma(p: ReadState, v: nat)
    requires p.state == 1
    ensures ReadRun(p, PrintNat(v) + ",")
         == ReadState(1, p.group + 1, PrintNat(v), if p.group < |p.slots| then p.slots[p.group := v] else p.slots)
  {
    ReadRunAppend(p, PrintNat(v), ",");
    ReadOneValue(p, v);
    ScanPrinted(v);
    assert "," == [','] + "";
    ReadRunCons(p.(state := 2, text := PrintNat(v)), ',', "");
  }

  /** Each value is in the slot of its number, as far as there are slots. */
  ghost predicate Stored(before: seq<int>, after: seq<int>, g: nat, vs: seq<nat>) {
    && |after| == |before|
    && forall j :: 0 <= j < |after| ==> after[j] == if g <= j < g + |vs| then vs[j - g] else before[j]
  }

  lemma StoredCons(before: seq<int>, after: seq<int>, g: nat, vs: seq<nat>)
    requires vs != [] && Stored(if g < |before| then before[g := vs[0]] else before, after, g + 1, vs[1..])
    ensures Stored(before, after, g, vs)
  {
  }

  lemma {:induction false} ReadValues(p: ReadState, vs: seq<nat>)
    requires p.state == 1 && vs != []
    ensures Stored(p.slots, ReadEnd(ReadRun(p, PrintValues(vs))), p.group, vs)
    decreases |vs|
  {
    if |vs| == 1 {
      assert PrintValues(vs[1..]) == "";
      assert PrintValues(vs) == PrintNat(vs[0]);
      ReadOneValue(p, vs[0]);
      ScanPrinted(vs[0]);
    } else {
      ReadRunAppend(p, PrintNat(vs[0]) + ",", PrintValues(vs[1..]));
      ReadValueComma(p, vs[0]);
      ReadValues(ReadRun(p, PrintNat(vs[0]) + ","), vs[1..]);
      StoredCons(p.slots, ReadEnd(ReadRun(p, PrintValues(vs))), p.group, vs);
    }
  }

  // ---------- both lists together ----------

  /** What the two parsers leave after a phone has printed its names and its values. */
  function NamesRead(n: Names, xs: seq<Indicator>): Names {
    TestRun(TestState(0, 0, "", n.(nocallsetup := true)), CIND + PrintNames(xs)).names
  }

  function ValuesRead(slots: seq<int>, vs: seq<nat>): seq<int> {
    ReadEnd(ReadRun(ReadState(0, 0, "", slots), CIND + PrintValues(vs)))
  }

  lemma {:induction false} SkipToParen(p: TestState, s: string)
    requires p.state == 0 && '(' !in s
    ensures TestRun(p, s) == p
    decreases |s|
  {
    if s != "" {
      SkipToParen(TestStep(p, s[0]), s[1..]);
    }
  }

  lemma NamesReadIs(n: Names, xs: seq<Indicator>)
    requires forall x :: x in xs ==> Printable(x)
    ensures NamesRead(n, xs) == StoreNames(n.(nocallsetup := true), 0, xs)
  {
    var p := TestState(0, 0, "", n.(nocallsetup := true));
    TestRunAppend(p, CIND, PrintNames(xs));
    SkipToParen(p, CIND);
    ReadNames(p, xs);
  }

  lemma {:induction false} SkipToBlank(p: ReadState, s: string)
    requires p.state == 0 && ' ' !in s
    ensures ReadRun(p, s) == p
    decreases |s|
  {
    if s != "" {
      SkipToBlank(ReadStep(p, s[0]), s[1..]);
    }
  }

  lemma PrefixRead(p: ReadState)
    requires p.state == 0 && p.group == 0 && p.text == ""
    ensures ReadRun(p, CIND) == p.(state := 1, group := 1)
  {
    assert CIND == "+CIND:" + ([' '] + "");
    ReadRunAppend(p, "+CIND:", [' '] + "");
    SkipToBlank(p, "+CIND:");
    ReadRunCons(p, ' ', "");
  }

  lemma ValuesReadIs(slots: seq<int>, vs: seq<nat>)
    requires vs != []
    ensures Stored(slots, ValuesRead(slots, vs), 1, vs)
  {
    var p := ReadState(0, 0, "", slots);
    PrefixRead(p);
    ReadRunAppend(p, CIND, PrintValues(vs));
    ReadValues(ReadState(1, 1, "", slots), vs);
  }

  /** A comma behind the last value stores nothing more, and without a blank nothing is stored. */
  lemma NothingBehindComma(slots: seq<int>, vs: seq<nat>, s: string)
    requires vs != []
    ensures ReadEnd(ReadRun(ReadState(0, 0, "", slots), CIND + PrintValues(vs) + ",")) == ValuesRead(slots, vs)
    ensures ' ' !in s ==> ReadEnd(ReadRun(ReadState(0, 0, "", slots), s)) == slots
  {
    var p := ReadState(0, 0, "", slots);
    var q := ReadRun(p, CIND + PrintValues(vs));
    EndsInValue(slots, vs);
    ReadRunAppend(p, CIND + PrintValues(vs), ",");
    assert "," == [','] + "";
    ReadRunCons(q, ',', "");
    if ' ' !in s {
      SkipToBlank(p, s);
    }
  }

  lemma {:induction false} StaysInValue(p: ReadState, vs: seq<nat>)
    requires p.state == 1 && vs != []
    ensures ReadRun(p, PrintValues(vs)).state == 2
    decreases |vs|
  {
    ReadOneValue(p, vs[0]);
    if |vs| == 1 {
      assert PrintValues(vs[1..]) == "";
      assert PrintValues(vs) == PrintNat(vs[0]);
    } else {
      ReadRunAppend(p, PrintNat(vs[0]) + ",", PrintValues(vs[1..]));
      ReadValueComma(p, vs[0]);
      StaysInValue(ReadRun(p, PrintNat(vs[0]) + ","), vs[1..]);
    }
  }

  lemma EndsInValue(slots: seq<int>, vs: seq<nat>)
    requires vs != []
    ensures ReadRun(ReadState(0, 0, "", slots), CIND + PrintValues(vs)).state == 2
  {
    var p := ReadState(0, 0, "", slots);
    PrefixRead(p);
    ReadRunAppend(p, CIND, PrintValues(vs));
    StaysInValue(ReadState(1, 1, "", slots), vs);
  }

  /** The value of a named indicator is found under the number that its name was given: for
      the last indicator of a kind, when the number has a slot. */
  lemma IndicatorRead(n: Names, slots: seq<int>, xs: seq<Indicator>, vs: seq<nat>, k: Kind, i: nat)
    requires (forall x :: x in xs ==> Printable(x)) && |vs| == |xs| && |slots| == SLOTS
    requires i < |xs| < SLOTS && !k.Unknown? && KindOf(xs[i].name) == k
    requires forall j :: i < j < |xs| ==> KindOf(xs[j].name) != k
    ensures var number := Number(NamesRead(n, xs), k);
            && number == i + 1 && |ValuesRead(slots, vs)| == SLOTS
            && ValuesRead(slots, vs)[number] == vs[i]
            && number in NamesRead(n, xs).index && NamesRead(n, xs).index[number] == k
  {
    var m := n.(nocallsetup := true);
    NamesReadIs(n, xs);
    StoredNumber(m, 0, xs, k);
    LastNumberIs(xs, 0, k, i);
    StoredIndex(m, 0, xs, i + 1);
    ValuesReadIs(slots, vs);
  }

  /** A kind that the phone does not name keeps the number it had. */
  lemma IndicatorMissing(n: Names, xs: seq<Indicator>, k: Kind)
    requires (forall x :: x in xs ==> Printable(x)) && !k.Unknown?
    requires forall j :: 0 <= j < |xs| ==> KindOf(xs[j].name) != k
    ensures Number(NamesRead(n, xs), k) == Number(n, k)
  {
    NamesReadIs(n, xs);
    StoredNumber(n.(nocallsetup := true), 0, xs, k);
    NoNumber(xs, 0, k);
  }

  /** The indicator printed i-th is the one of its kind: its number is i + 1, the slot of that number
      holds the printed value, and a report with that number tells the kind. */
  predicate ReadAs(n: Names, slots: seq<int>, k: Kind, i: nat, v: int) {
    && Number(n, k) == i + 1
    && i + 1 < |slots| && slots[i + 1] == v
    && Told(n, i + 1) == Some(k)
  }

  predicate LastOf(xs: seq<Indicator>, names: set<string>, i: nat) {
    i < |xs| && xs[i].name in names && forall j :: i < j < |xs| ==> xs[j].name !in names
  }

  /** The kind has these names and no others. */
  ghost predicate Named(k: Kind, names: set<string>) {
    forall name :: KindOf(name) == k <==> name in names
  }

  lemma KindIs(name: string, k: Kind)
    ensures KindOf(name) == k <==>
            match k
            case Service => name == "service"
            case Call => name == "call"
            case CallSetup => name == "callsetup" || name == "call_setup"
            case CallHeld => name == "callheld"
            case Signal => name == "signal"
            case Roam => name == "roam"
            case BattChg => name == "battchg"
            case Unknown => KindOf(name).Unknown?
  {
  }

  lemma KindIsNamed(k: Kind, names: set<string>)
    requires match k
             case Service => names == {"service"}
             case Call => names == {"call"}
             case CallSetup => names == {"callsetup", "call_setup"}
             case CallHeld => names == {"callheld"}
             case Signal => names == {"signal"}
             case Roam => names == {"roam"}
             case BattChg => names == {"battchg"}
             case Unknown => false
    ensures Named(k, names)
  {
    forall name: string
      ensures KindOf(name) == k <==> name in names
    {
      KindIs(name, k);
    }
  }

  lemma KindIsRead(n: Names, slots: seq<int>, xs: seq<Indicator>, vs: seq<nat>, k: Kind, names: set<string>, i: nat)
    requires (forall x :: x in xs ==> Printable(x)) && |vs| == |xs| < SLOTS && |slots| == SLOTS
    requires !k.Unknown? && Named(k, names)
    ensures LastOf(xs, names, i) ==> ReadAs(NamesRead(n, xs), ValuesRead(slots, vs), k, i, vs[i])
  {
    if LastOf(xs, names, i) {
      IndicatorRead(n, slots, xs, vs, k, i);
    }
  }

  /** Which indicator each printed name stands for; call setup has a second name. */
  lemma NamesAreRead(n: Names, slots: seq<int>, xs: seq<Indicator>, vs: seq<nat>, i: nat)
    requires (forall x :: x in xs ==> Printable(x)) && |vs| == |xs| < 16 && |slots| == 16
    ensures var names, values := NamesRead(n, xs), ValuesRead(slots, vs);
            && (LastOf(xs, {"service"}, i) ==> ReadAs(names, values, Service, i, vs[i]))
            && (LastOf(xs, {"call"}, i) ==> ReadAs(names, values, Call, i, vs[i]))
            && (LastOf(xs, {"callsetup", "call_setup"}, i) ==> ReadAs(names, values, CallSetup, i, vs[i]))
            && (LastOf(xs, {"callheld"}, i) ==> ReadAs(names, values, CallHeld, i, vs[i]))
            && (LastOf(xs, {"signal"}, i) ==> ReadAs(names, values, Signal, i, vs[i]))
            && (LastOf(xs, {"roam"}, i) ==> ReadAs(names, values, Roam, i, vs[i]))
            && (LastOf(xs, {"battchg"}, i) ==> ReadAs(names, values, BattChg, i, vs[i]))
  {
    KindIsNamed(Service, {"service"});
    KindIsRead(n, slots, xs, vs, Service, {"service"}, i);
    KindIsNamed(Call, {"call"});
    KindIsRead(n, slots, xs, vs, Call, {"call"}, i);
    KindIsNamed(CallSetup, {"callsetup", "call_setup"});
    KindIsRead(n, slots, xs, vs, CallSetup, {"callsetup", "call_setup"}, i);
    KindIsNamed(CallHeld, {"callheld"});
    KindIsRead(n, slots, xs, vs, CallHeld, {"callheld"}, i);
    KindIsNamed(Signal, {"signal"});
    KindIsRead(n, slots, xs, vs, Signal, {"signal"}, i);
    KindIsNamed(Roam, {"roam"});
    KindIsRead(n, slots, xs, vs, Roam, {"roam"}, i);
    KindIsNamed(BattChg, {"battchg"});
    KindIsRead(n, slots, xs, vs, BattChg, {"battchg"}, i);
  }

  /** A name that is none of the eight takes a number and nothing else. */
  lemma UnknownName(n: Names, group: nat, name: string)
    requires name !in {"service", "call", "callsetup", "call_setup", "callheld", "signal", "roam", "battchg"}
    ensures var q := StoreName(n, group, name); q.numbers == n.numbers && q.nocallsetup == n.nocallsetup
  {
  }

  /** Any other name is told as unknown. */
  lemma OtherNames(n: Names, xs: seq<Indicator>, i: nat)
    requires (forall x :: x in xs ==> Printable(x)) && i < |xs| < 16
    ensures Told(NamesRead(n, xs), i + 1) == Some(Unknown) <==>
            xs[i].name !in {"service", "call", "callsetup", "call_setup", "callheld", "signal", "roam", "battchg"}
  {
    NamesReadIs(n, xs);
    StoredIndex(n.(nocallsetup := true), 0, xs, i + 1);
  }

  lemma {:induction false} StoredNoCallSetup(n: Names, g: nat, xs: seq<Indicator>)
    requires g + |xs| < SLOT_BYTES
    ensures StoreNames(n, g, xs).nocallsetup <==>
            n.nocallsetup && forall x :: x in xs ==> x.name != "callsetup" && x.name != "call_setup"
    decreases |xs|
  {
    if xs != [] {
      StoredNoCallSetup(StoreName(n, g + 1, xs[0].name), g + 1, xs[1..]);
      assert xs == [xs[0]] + xs[1..];
    }
  }

  /** A phone is taken to have no call setup indicator exactly when it printed neither name. */
  lemma NoCallSetupRead(n: Names, xs: seq<Indicator>)
    requires (forall x :: x in xs ==> Printable(x)) && |xs| < 64
    ensures NamesRead(n, xs).nocallsetup <==>
            forall x :: x in xs ==> x.name != "callsetup" && x.name != "call_setup"
  {
    NamesReadIs(n, xs);
    StoredNoCallSetup(n.(nocallsetup := true), 0, xs);
  }

  /** The service check: true without the indicator, and otherwise exactly when the phone printed 1. */
  lemma ServiceRead(n: Names, slots: seq<int>, xs: seq<Indicator>, vs: seq<nat>, i: nat)
    requires (forall x :: x in xs ==> Printable(x)) && |vs| == |xs| < 16 && |slots| == 16
    requires LastOf(xs, {"service"}, i)
    ensures Number(NamesRead(n, xs), Service) < |ValuesRead(slots, vs)|
    ensures HasService(NamesRead(n, xs), ValuesRead(slots, vs)) <==> vs[i] == 1
  {
    NamesAreRead(n, slots, xs, vs, i);
  }

  /** A phone that prints no "service" is taken to have service. */
  lemma ServiceMissing(slots: seq<int>, xs: seq<Indicator>, vs: seq<nat>)
    requires (forall x :: x in xs ==> Printable(x)) && (forall x :: x in xs ==> x.name != "service")
    requires vs != [] && |slots| == 16
    ensures Number(NamesRead(NO_NAMES, xs), Service) < |ValuesRead(slots, vs)|
    ensures HasService(NamesRead(NO_NAMES, xs), ValuesRead(slots, vs))
  {
    IndicatorMissing(NO_NAMES, xs, Service);
    ValuesReadIs(slots, vs);
  }

  /** The check for a call in progress looks at the value that the phone printed for "call". */
  lemma CallRead(n: Names, slots: seq<int>, xs: seq<Indicator>, vs: seq<nat>, i: nat)
    requires (forall x :: x in xs ==> Printable(x)) && |vs| == |xs| < 16 && |slots| == 16
    requires LastOf(xs, {"call"}, i)
    ensures Number(NamesRead(n, xs), Call) < |ValuesRead(slots, vs)|
    ensures CallActive(NamesRead(n, xs), ValuesRead(slots, vs)) <==> vs[i] != 0
  {
    NamesAreRead(n, slots, xs, vs, i);
  }

  /** What the two parsers get to see, character by character. */
  lemma PrintedForm(a: Indicator, b: Indicator)
    ensures CIND + PrintNames([a, b]) == "+CIND: " + PrintName(a) + "," + PrintName(b)
    ensures PrintName(Indicator("call", "0,1")) == "(\"call\",(0,1))"
    ensures CIND + PrintValues([1, 20]) == "+CIND: " + "1,20"
  {
    assert [a, b][1..] == [b];
    assert PrintNames([b][1..]) == "" && PrintNames([b]) == PrintName(b);
    PrintedTwoValues();
  }

  lemma PrintedTwoValues()
    ensures PrintValues([1, 20]) == "1,20"
  {
    assert PrintNat(20) == PrintNat(2) + "0" == "20";
    assert PrintValues([20][1..]) == "" && PrintValues([20]) == "20";
    assert [1, 20][1..] == [20];
  }

  /** The first 63 names are stored, each in the place of its number; they stay inside the 16 places
      of the index array exactly when there are at most 15 of them. */
  lemma NamesFit(xs: seq<Indicator>)
    requires forall x :: x in xs ==> Printable(x)
    ensures forall j :: j in NamesRead(NO_NAMES, xs).index <==> 0 < j <= |xs| && j < 64
    ensures (forall j :: j in NamesRead(NO_NAMES, xs).index ==> j < 16) <==> |xs| <= 15
  {
    NamesReadIs(NO_NAMES, xs);
    forall j: nat
      ensures j in NamesRead(NO_NAMES, xs).index <==> 0 < j <= |xs| && j < 64
    {
      StoredIndex(NO_NAMES.(nocallsetup := true), 0, xs, j);
    }
    assert |xs| >= 16 ==> 16 in NamesRead(NO_NAMES, xs).index;
  }

  /** The sixteenth name goes to the place behind the array. */
  lemma SixteenNames(xs: seq<Indicator>)
    requires xs == seq(16, _ => Indicator("roam", "0,1"))
    ensures (forall x :: x in xs ==> Printable(x))
    ensures var names := NamesRead(NO_NAMES, xs);
            16 in names.index && names.index[16] == Roam && Told(names, 16) == None
  {
    assert Printable(Indicator("roam", "0,1"));
    NamesReadIs(NO_NAMES, xs);
    StoredIndex(NO_NAMES.(nocallsetup := true), 0, xs, SLOTS);
    assert xs[15].name == "roam";
  }
}
