/**
 How long a subscript can get: commands are stored within a limit, but IFEVENT and the GOTO of
 an IF write their four bytes without looking at it.
 */
module AdsiBudget {
  import opened Basics
  import opened AdsiScript
  import opened AdsiLinks
  import opened AdsiSteps
  import opened AdsiResults

  function Limit(id: nat): nat {
    if id != 0 then MAX_SUB_LEN else MAX_MAIN_LEN
  }

  /** Written without a check for space. */
  predicate Unchecked(i: Instr) {
    i.IfHeader? || i.IfGoto?
  }

  function UncheckedIn(q: seq<Instr>): nat {
    if q == [] then 0 else UncheckedIn(q[..|q| - 1]) + if Unchecked(q[|q| - 1]) then 1 else 0
  }

  /** The length is past the limit by at most four bytes for each unchecked instruction. */
  predicate Within(e: Entry<Sub>) {
    e.item.datalen <= Limit(e.id) + 4 * UncheckedIn(e.item.instrs)
  }

  predicate AllWithin(s: Script) {
    forall i :: 0 <= i < |s.subs| ==> Within(s.subs[i])
  }

  lemma UncheckedPush(q: seq<Instr>, i: Instr)
    ensures UncheckedIn(q + [i]) == UncheckedIn(q) + if Unchecked(i) then 1 else 0
  {
    assert (q + [i])[..|q|] == q;
  }

  lemma {:induction false} UncheckedUpdate(q: seq<Instr>, at: nat, i: Instr)
    requires at < |q| && Unchecked(q[at]) == Unchecked(i)
    ensures UncheckedIn(q[at := i]) == UncheckedIn(q)
  {
    var n := |q| - 1;
    assert q[at := i][..n] == if at < n then q[..n][at := i] else q[..n];
    if at < n {
      UncheckedUpdate(q[..n], at, i);
    }
  }

  // ---------- every line keeps it ----------

  lemma GrownWithin(s: Script, s': Script)
    requires AllWithin(s) && Grown(s, s')
    ensures AllWithin(s')
  {
    forall i | 0 <= i < |s'.subs| ensures Within(s'.subs[i]) {
      if i < |s.subs| {
        assert s'.subs[i] == s'.subs[..|s.subs|][i];
      }
    }
  }

  /** Another record for the subscript at hand. */
  lemma SetWithin(s: Script, b: Sub)
    requires AllWithin(s) && (s.sub < |s.subs| ==> Within(s.subs[s.sub].(item := b)))
    ensures AllWithin(SetSub(s, b))
  {
  }

  lemma StoreWithin(s: Script, i: Instr)
    requires AllWithin(s)
    ensures AllWithin(StoreInstr(s, i).s)
  {
    if s.sub < |s.subs| {
      var e := s.subs[s.sub];
      if e.item.datalen + Size(i) + 1 <= Limit(e.id) {
        SetWithin(s, AddInstr(e.item, i));
      }
    }
  }

  lemma OpcodeWithin(s: Script, line: Line)
    requires TablesOk(s) && AllWithin(s) && line.tokens != []
    ensures AllWithin(ProcessOpcode(s, line).s)
  {
    match CommandByName(SUB_COMMANDS, line.tokens[0])
    case None =>
    case Some(c) =>
      var w := Write(s, c, line);
      WriteOk(s, c, line);
      GrownWithin(s, w.s);
      StoreWithin(w.s, w.instr);
  }

  lemma ReturncodeWithin(s: Script, line: Line)
    requires TablesOk(s) && AllWithin(s) && line.tokens != []
    ensures AllWithin(ProcessReturncode(s, line).s)
  {
    match CommandByName(KEY_COMMANDS, line.tokens[0])
    case None =>
    case Some(c) =>
      var w := Write(s, c, line);
      WriteOk(s, c, line);
      GrownWithin(s, w.s);
      assert StoreCode(w.s, w.instr).subs == w.s.subs;
  }

  lemma OpenSubWithin(s: Script, at: nat, toks: seq<string>)
    requires AllWithin(s)
    ensures AllWithin(OpenSub(s, at, toks))
  {
    if at < |s.subs| && !s.subs[at].item.defined {
      var e := s.subs[at];
      SetWithin(s.(sub := at), e.item.(instrs := [], datalen := if e.id != 0 then 7 else 3));
    }
  }

  lemma BeginSubWithin(s: Script, toks: seq<string>)
    requires TablesOk(s) && AllWithin(s)
    ensures AllWithin(BeginSub(s, toks))
  {
    match QuotedAt(toks, 1, 255)
    case None =>
    case Some(name) =>
      var (s', at) := GetSub(s, name);
      GetSubGrows(s, name);
      GrownWithin(s, s');
      if at.Some? {
        OpenSubWithin(s', at.value, toks);
      }
  }

  lemma KeyLinesWithin(s: Script, toks: seq<string>)
    ensures BeginKey(s, toks).subs == s.subs && EndKey(s).subs == s.subs
  {
  }

  lemma NormalWithin(s: Script, line: Line)
    requires TablesOk(s) && AllWithin(s) && line.tokens != []
    ensures AllWithin(ProcessNormal(s, line))
  {
    BeginSubWithin(s, line.tokens);
    KeyLinesWithin(s, line.tokens);
  }

  lemma InKeyWithin(s: Script, line: Line)
    requires TablesOk(s) && AllWithin(s) && line.tokens != []
    ensures AllWithin(ProcessInKey(s, line))
  {
    ReturncodeWithin(s, line);
    KeyLinesWithin(ProcessReturncode(s, line).s, line.tokens);
  }

  lemma EndSubWithin(s: Script)
    requires AllWithin(s)
    ensures AllWithin(EndSub(s))
  {
  }

  lemma BeginIfWithin(s: Script, toks: seq<string>)
    requires AllWithin(s)
    ensures AllWithin(BeginIf(s, toks))
  {
    if s.sub < |s.subs| && |toks| >= 2 {
      var b, h := s.subs[s.sub].item, IfHeader(EventByName(toks[1]), 0);
      UncheckedPush(b.instrs, h);
      SetWithin(s, AddInstr(b, h).(ifAt := |b.instrs|, ifinscount := 0));
    }
  }

  lemma InSubWithin(s: Script, line: Line)
    requires TablesOk(s) && AllWithin(s) && line.tokens != []
    ensures AllWithin(ProcessInSub(s, line))
  {
    OpcodeWithin(s, line);
    var p := ProcessOpcode(s, line);
    EndSubWithin(p.s);
    BeginIfWithin(p.s, line.tokens);
  }

  lemma EndIfWithin(s: Script)
    requires AllWithin(s)
    ensures AllWithin(EndIf(s))
  {
    if s.sub < |s.subs| && s.subs[s.sub].item.ifAt < |s.subs[s.sub].item.instrs| {
      var b := s.subs[s.sub].item;
      match b.instrs[b.ifAt]
      case IfHeader(event, _) =>
        var h := IfHeader(event, b.ifinscount % 256);
        UncheckedUpdate(b.instrs, b.ifAt, h);
        SetWithin(s, b.(defined := true, instrs := b.instrs[b.ifAt := h]));
      case _ =>
    }
  }

  lemma StoreIfGotoWithin(s: Script, at: nat)
    requires AllWithin(s)
    ensures AllWithin(StoreIfGoto(s, at))
  {
    if at < |s.subs| && s.sub < |s.subs| {
      var b := s.subs[s.sub].item;
      if b.ifAt < |b.instrs| && b.instrs[b.ifAt].IfHeader? {
        var i := IfGoto(b.instrs[b.ifAt].event, s.subs[at].id);
        UncheckedPush(b.instrs, i);
        SetWithin(s, AddInstr(b, i).(ifinscount := b.ifinscount + 1));
      }
    }
  }

  lemma IfGotoWithin(s: Script, toks: seq<string>)
    requires TablesOk(s) && AllWithin(s)
    ensures AllWithin(IfGotoLine(s, toks))
  {
    match QuotedAt(toks, 1, 79)
    case None =>
    case Some(name) =>
      var (s', at) := GetSub(s, name);
      GetSubGrows(s, name);
      GrownWithin(s, s');
      if at.Some? {
        StoreIfGotoWithin(s', at.value);
      }
  }

  lemma CountWithin(s: Script)
    requires AllWithin(s)
    ensures AllWithin(CountInIf(s))
  {
  }

  lemma InIfWithin(s: Script, line: Line)
    requires Inv(s) && s.mode == InIf && AllWithin(s) && line.tokens != []
    ensures AllWithin(ProcessInIf(s, line))
  {
    OpcodeWithin(s, line);
    OpcodeInsideKeeps(s, line);
    var p := ProcessOpcode(s, line);
    CountWithin(p.s);
    EndIfWithin(p.s);
    if !p.done {
      IfGotoWithin(p.s, line.tokens);
    }
  }

  /** After any lines every subscript is past its limit, 255 bytes or 1600 for main, by at most
      four bytes for each IF and each GOTO of an IF; without an IF it keeps the limit. */
  lemma {:induction false} LengthIsBounded(lines: seq<Line>)
    ensures AllWithin(After(lines))
  {
    if lines == [] {
      assert After(lines).subs == [Entry("main", 0, NO_SUB)];
    } else {
      var s, line := After(lines[..|lines| - 1]), lines[|lines| - 1];
      AfterKeeps(lines[..|lines| - 1]);
      LengthIsBounded(lines[..|lines| - 1]);
      if line.tokens != [] {
        match s.mode
        case Normal => NormalWithin(s, line);
        case InKey => InKeyWithin(s, line);
        case InSub => InSubWithin(s, line);
        case InIf => InIfWithin(s, line);
      }
    }
  }

  lemma {:induction false} NoneUnchecked(q: seq<Instr>)
    requires forall i :: 0 <= i < |q| ==> !Unchecked(q[i])
    ensures UncheckedIn(q) == 0
  {
    if q != [] {
      NoneUnchecked(q[..|q| - 1]);
    }
  }

  /** So a subscript without an IF keeps the limit. */
  lemma WithoutIfWithinLimit(lines: seq<Line>, x: nat)
    requires x < |After(lines).subs|
    requires var q := After(lines).subs[x].item.instrs; forall i :: 0 <= i < |q| ==> !Unchecked(q[i])
    ensures After(lines).subs[x].item.datalen <= Limit(After(lines).subs[x].id)
  {
    LengthIsBounded(lines);
    NoneUnchecked(After(lines).subs[x].item.instrs);
    assert Within(After(lines).subs[x]);
  }

  // ---------- files with the same line many times ----------

  function Times(line: Line, k: nat): seq<Line> {
    if k == 0 then [] else Times(line, k - 1) + [line]
  }

  /** What a line adds some bytes to, it adds k times as many to when it stands there k times. */
  lemma {:induction false} AddsUp(has: (seq<Line>, nat) -> bool, lines: seq<Line>, line: Line, n: nat, step: nat,
                                  max: nat, k: nat)
    requires has(lines, n) && n + step * k <= max
    requires forall l, m: nat :: has(l, m) && m + step <= max ==> has(l + [line], m + step)
    ensures has(lines + Times(line, k), n + step * k)
  {
    if k == 0 {
      assert lines + Times(line, k) == lines;
    } else {
      assert step * k == step * (k - 1) + step;
      AddsUp(has, lines, line, n, step, max, k - 1);
      assert lines + Times(line, k) == lines + Times(line, k - 1) + [line];
    }
  }

  /** Only main was named, and it has n bytes. */
  predicate MainHas(s: Script, n: nat) {
    s.keys == [] && |s.subs| == 1 && s.sub == 0 && s.subs[0].id == 0 && s.subs[0].item.datalen == n
  }

  /** After these lines main is open and has n bytes. */
  predicate OpenMain(lines: seq<Line>, n: nat) {
    After(lines).mode == InSub && MainHas(After(lines), n)
  }

  predicate IsEndSub(line: Line) {
    line.tokens != [] && CommandByName(SUB_COMMANDS, line.tokens[0]) == None && Same(line.tokens[0], "ENDSUB")
  }

  lemma MainEnds(s: Script, line: Line, n: nat)
    requires s.mode == InSub && MainHas(s, n) && IsEndSub(line)
    ensures var s' := Process(s, line); s'.mode == Normal && MainHas(s', n) && s'.subs[0].item.defined
  {
    assert ProcessOpcode(s, line) == Processed(s, false);
    assert Process(s, line) == EndSub(s);
  }

  lemma MainCompiles(lines: seq<Line>, end: Line, n: nat)
    requires OpenMain(lines, n) && IsEndSub(end)
    ensures var r := Compile(lines + [end]); r.Some? && MainHas(r.value, n)
  {
    AfterPush(lines, end);
    MainEnds(After(lines), end, n);
  }

  // ---------- an IF with many GOTOs ----------

  /** A GOTO of main inside of an IF. */
  predicate IsGotoMain(line: Line) {
    && |line.tokens| >= 2
    && CommandByName(SUB_COMMANDS, line.tokens[0]) == None
    && !Same(line.tokens[0], "ENDIF") && Same(line.tokens[0], "GOTO")
    && Quoted(line.tokens[1], 79) == Some("main")
  }

  /** Main has an open IF and n bytes. */
  predicate IfHas(s: Script, n: nat) {
    && s.mode == InIf && MainHas(s, n) && s.subs[0].name == "main"
    && var b := s.subs[0].item;
       b.ifAt < |b.instrs| && b.instrs[b.ifAt].IfHeader?
  }

  lemma GotoLine(s: Script, line: Line, n: nat)
    requires IfHas(s, n) && IsGotoMain(line)
    ensures IfHas(Process(s, line), n + 4)
  {
    assert GetSub(s, "main") == (s, Some(0));
    assert ProcessOpcode(s, line) == Processed(s, false);
    assert Process(s, line) == IfGotoLine(s, line.tokens) == StoreIfGoto(s, 0);
  }

  predicate IfOpen(lines: seq<Line>, n: nat) {
    IfHas(After(lines), n)
  }

  lemma GotoAddsFour(lines: seq<Line>, line: Line, n: nat)
    requires IfOpen(lines, n) && IsGotoMain(line)
    ensures IfOpen(lines + [line], n + 4)
  {
    AfterPush(lines, line);
    GotoLine(After(lines), line, n);
  }

  lemma GotosAddUp(lines: seq<Line>, line: Line, n: nat, k: nat)
    requires IfOpen(lines, n) && IsGotoMain(line)
    ensures IfOpen(lines + Times(line, k), n + 4 * k)
  {
    var has := (l: seq<Line>, m: nat) => IfOpen(l, m);
    forall l, m: nat | has(l, m) && m + 4 <= n + 4 * k ensures has(l + [line], m + 4) {
      GotoAddsFour(l, line, m);
    }
    AddsUp(has, lines, line, n, 4, n + 4 * k, k);
  }

  lemma MainIfOpens(main: Line, open: Line)
    requires IsSubMain(main) && IsIf(open)
    ensures IfOpen([main] + [open], 7)
  {
    MainIsOpen(main);
    AfterKeeps([main]);
    AfterPush([main], open);
    IfBegins(After([main]), open);
  }

  lemma IfEndsOpenMain(lines: seq<Line>, close: Line, n: nat)
    requires IfOpen(lines, n) && IsEndIf(close)
    ensures OpenMain(lines + [close], n)
  {
    AfterKeeps(lines);
    AfterPush(lines, close);
    IfCloses(After(lines), close, After(lines + [close]));
    AfterKeeps(lines + [close]);
  }

  /** There is no bound on the length of a subscript: with k GOTOs in an IF, for any k, main
      compiles to 7 + 4 * k bytes. */
  lemma NoBoundOnGotos(main: Line, open: Line, goto: Line, close: Line, end: Line, k: nat)
    requires IsSubMain(main) && IsIf(open) && IsGotoMain(goto) && IsEndIf(close) && IsEndSub(end)
    ensures var r := Compile([main] + [open] + Times(goto, k) + [close] + [end]);
            r.Some? && |r.value.subs| == 1 && r.value.subs[0].item.datalen == 7 + 4 * k
  {
    var lines := [main] + [open];
    MainIfOpens(main, open);
    GotosAddUp(lines, goto, 7, k);
    IfEndsOpenMain(lines + Times(goto, k), close, 7 + 4 * k);
    MainCompiles(lines + Times(goto, k) + [close], end, 7 + 4 * k);
  }

  lemma GotoIsNoCommand()
    ensures CommandByName(SUB_COMMANDS, "GOTO") == None
  {
    forall i | 0 <= i < |SUB_COMMANDS| ensures !Same(SUB_COMMANDS[i].name, "GOTO") {
      var n := SUB_COMMANDS[i].name;
      assert |n| != 4 || ('A' <= n[0] <= 'Z' && n[0] != 'G');
      assert "GOTO"[0] == 'G';
    }
    NotACommand(SUB_COMMANDS, "GOTO");
  }

  lemma EndsubIsNoCommand()
    ensures CommandByName(SUB_COMMANDS, "ENDSUB") == None
  {
    forall i | 0 <= i < |SUB_COMMANDS| ensures !Same(SUB_COMMANDS[i].name, "ENDSUB") {
      assert |SUB_COMMANDS[i].name| != |"ENDSUB"|;
    }
    NotACommand(SUB_COMMANDS, "ENDSUB");
  }

  lemma SuchLinesExist()
    ensures IsGotoMain(Line(["GOTO", "\"main\""], [])) && IsEndSub(Line(["ENDSUB"], []))
  {
    GotoMainExists();
    EndsubIsNoCommand();
  }

  lemma GotoMainExists()
    ensures IsGotoMain(Line(["GOTO", "\"main\""], []))
  {
    GotoIsNoCommand();
    assert "\"main\""[1..][..4] == "main";
    assert |"GOTO"| != |"ENDIF"|;
  }
}
