/** Every line keeps the invariant of the compiler. */
module AdsiSteps {
  import opened Basics
  import opened AdsiScript
  import opened AdsiLinks

  // ---------- reading the IF blocks back ----------

  lemma SlicesOfConcat<T>(a: seq<T>, b: seq<T>, n: nat)
    requires 1 <= n <= |a|
    ensures (a + b)[n..] == a[n..] + b && (a + b)[1..n] == a[1..n]
  {
  }

  lemma {:induction false} ParsesConcat(a: seq<Instr>, b: seq<Instr>)
    requires Parses(a) && Parses(b)
    ensures Parses(a + b)
    decreases |a|
  {
    if a == [] {
      assert a + b == b;
    } else {
      var n := Span(a[0]);
      SlicesOfConcat(a, b, n);
      ParsesConcat(a[n..], b);
    }
  }

  lemma ParsesPush(q: seq<Instr>, i: Instr)
    requires Parses(q) && !i.IfHeader? && !i.IfGoto?
    ensures Parses(q + [i])
  {
    assert Parses([i]) by {
      assert [i][1..] == [];
    }
    ParsesConcat(q, [i]);
  }

  lemma UpdateIsConcat<T>(q: seq<T>, at: nat, x: T)
    requires at < |q|
    ensures q[at := x] == q[..at] + ([x] + q[at + 1..])
  {
  }

  /** Closing an IF makes its block readable. */
  lemma ParsesClosed(q: seq<Instr>, at: nat, h: Instr)
    requires at < |q| && q[at].IfHeader? && Parses(q[..at]) && Block(q[at + 1..], q[at].event)
    requires h == IfHeader(q[at].event, |q| - at - 1)
    ensures Parses(q[at := h])
  {
    var tail := [h] + q[at + 1..];
    assert Parses(tail) by {
      assert tail[1..Span(h)] == q[at + 1..] && tail[Span(h)..] == [];
    }
    ParsesConcat(q[..at], tail);
    UpdateIsConcat(q, at, h);
  }

  // ---------- adding an instruction ----------

  lemma AddKeeps(b: Sub, id: nat, i: Instr)
    requires SubOk(b, id, Open) && !i.IfHeader? && !i.IfGoto?
    ensures SubOk(AddInstr(b, i), id, Open)
  {
    SizesPush(b.instrs, i, 1);
    if b.inscount < 256 {
      ParsesPush(b.instrs, i);
    }
  }

  lemma SlicesOfPush<T>(q: seq<T>, at: nat, x: T)
    requires at < |q|
    ensures (q + [x])[..at] == q[..at] && (q + [x])[at + 1..] == q[at + 1..] + [x]
  {
  }

  lemma AddInsideKeeps(b: Sub, id: nat, i: Instr)
    requires SubOk(b, id, InsideIf) && !i.IfHeader? && (i.IfGoto? ==> i.event == b.instrs[b.ifAt].event)
    ensures SubOk(AddInstr(b, i).(ifinscount := b.ifinscount + 1), id, InsideIf)
  {
    SizesPush(b.instrs, i, 1);
    SlicesOfPush(b.instrs, b.ifAt, i);
  }

  lemma InstrsOkPush(q: seq<Instr>, i: Instr, keys: nat, subs: nat)
    requires InstrsOk(q, keys, subs) && InstrOk(i, keys, subs)
    ensures InstrsOk(q + [i], keys, subs)
  {
  }

  lemma OpenNow(s: Script)
    requires Inv(s) && s.mode == InSub
    ensures s.subs[s.sub].id == s.sub
    ensures SubOk(s.subs[s.sub].item, s.sub, Open) && InstrsOk(s.subs[s.sub].item.instrs, |s.keys|, |s.subs|)
  {
    assert PlaceOf(s, s.sub) == Open;
  }

  lemma InsideNow(s: Script)
    requires Inv(s) && s.mode == InIf
    ensures SubOk(s.subs[s.sub].item, s.sub, InsideIf) && InstrsOk(s.subs[s.sub].item.instrs, |s.keys|, |s.subs|)
  {
    assert PlaceOf(s, s.sub) == InsideIf;
  }

  lemma SetOpenKeeps(s: Script, b: Sub)
    requires Inv(s) && s.mode != InKey && s.sub < |s.subs|
    requires SubOk(b, s.sub, Open) && InstrsOk(b.instrs, |s.keys|, |s.subs|)
    ensures Inv(SetSub(s, b).(mode := InSub))
  {
    SetSubKeeps(s, b, InSub);
  }

  lemma SetInsideKeeps(s: Script, b: Sub)
    requires Inv(s) && s.mode != InKey && s.sub < |s.subs|
    requires SubOk(b, s.sub, InsideIf) && InstrsOk(b.instrs, |s.keys|, |s.subs|)
    ensures Inv(SetSub(s, b).(mode := InIf))
  {
    SetSubKeeps(s, b, InIf);
  }

  // ---------- lines outside of definitions ----------

  lemma KeyHeaderOk(k: Key, short: string, full: string)
    requires !k.defined
    ensures var h := KeyHeader(k, short, full); KeyOk(h) && h.codes == [] && !h.defined && h.initlen > 0
  {
  }

  lemma OpenKeyKeeps(s: Script, at: nat, toks: seq<string>)
    requires Inv(s) && s.mode == Normal
    ensures Inv(OpenKey(s, at, toks))
  {
    if at < |s.keys| && !s.keys[at].item.defined {
      match KeyNames(toks)
      case None =>
      case Some(names) =>
        KeyHeaderOk(s.keys[at].item, names.0, names.1);
        SetKeyKeeps(s.(key := at), KeyHeader(s.keys[at].item, names.0, names.1));
    }
  }

  lemma BeginKeyKeeps(s: Script, toks: seq<string>)
    requires Inv(s) && s.mode == Normal
    ensures Inv(BeginKey(s, toks))
  {
    match QuotedAt(toks, 1, 255)
    case None =>
    case Some(name) =>
      var (s', at) := GetKey(s, name);
      GetKeyGrows(s, name);
      GrownKeeps(s, s');
      if at.Some? {
        OpenKeyKeeps(s', at.value, toks);
      }
  }

  lemma OpenSubKeeps(s: Script, at: nat, toks: seq<string>)
    requires Inv(s) && s.mode == Normal
    ensures Inv(OpenSub(s, at, toks))
  {
    if at < |s.subs| && !s.subs[at].item.defined {
      var e := s.subs[at];
      assert SubOk(e.item, at, Unbegun);
      var b := e.item.(instrs := [], datalen := if e.id != 0 then 7 else 3);
      SetSubKeeps(s.(sub := at), b, if Word(toks, 2, "IS") then InSub else Normal);
    }
  }

  lemma BeginSubKeeps(s: Script, toks: seq<string>)
    requires Inv(s) && s.mode == Normal
    ensures Inv(BeginSub(s, toks))
  {
    match QuotedAt(toks, 1, 255)
    case None =>
    case Some(name) =>
      var (s', at) := GetSub(s, name);
      GetSubGrows(s, name);
      GrownKeeps(s, s');
      if at.Some? {
        OpenSubKeeps(s', at.value, toks);
      }
  }

  lemma GetKeepsTable<T>(t: seq<Entry<T>>, name: string, max: nat, first: nat, item: T)
    requires TableOk(t, max, first)
    ensures var f := Get(t, name, max, first, item); TableOk(f.t, max, first) && Extends(f.t, t)
  {
  }

  lemma DisplayItemOk(toks: seq<string>)
    ensures DisplayOk(DisplayItem(NO_DISPLAY, toks))
  {
    if Word(toks, 2, "IS") {
      match QuotedAt(toks, 3, 79)
      case None =>
      case Some(c1) => assert DisplayOk(DisplayTexts(NO_DISPLAY, c1, QuotedAt(toks, 4, 79)));
    }
  }

  lemma DeclareKeeps(s: Script, toks: seq<string>)
    requires Inv(s) && s.mode == Normal
    ensures Inv(DeclareState(s, toks)) && Inv(DeclareFlag(s, toks))
  {
    match QuotedAt(toks, 1, 255)
    case None =>
    case Some(name) =>
      GetKeepsTable(s.states, name, MAX_STATES, 1, ());
      GetKeepsTable(s.flags, name, MAX_FLAGS, 1, ());
  }

  lemma DeclareDisplayKeeps(s: Script, toks: seq<string>)
    requires Inv(s) && s.mode == Normal
    ensures Inv(DeclareDisplay(s, toks))
  {
    DisplayItemOk(toks);
    match QuotedAt(toks, 1, 255)
    case None =>
    case Some(name) => GetKeepsTable(s.displays, name, MAX_DISPLAYS, 1, NO_DISPLAY);
  }

  lemma NormalKeeps(s: Script, line: Line, s': Script)
    requires Inv(s) && s.mode == Normal && line.tokens != [] && s' == ProcessNormal(s, line)
    ensures Inv(s')
  {
    var keyword := line.tokens[0];
    if Same(keyword, "KEY") {
      BeginKeyKeeps(s, line.tokens);
    } else if Same(keyword, "SUB") {
      BeginSubKeeps(s, line.tokens);
    } else if Same(keyword, "STATE") || Same(keyword, "FLAG") {
      DeclareKeeps(s, line.tokens);
    } else if Same(keyword, "DISPLAY") {
      DeclareDisplayKeeps(s, line.tokens);
    }
  }

  // ---------- lines of a soft key ----------

  lemma AddCodeKeeps(k: Key, i: Instr)
    requires KeyOk(k) && k.initlen > 0 && !k.defined && k.retstrlen + Size(i) - k.initlen <= MAX_RET_CODE
    ensures KeyOk(k.(codes := k.codes + [i], retstrlen := k.retstrlen + Size(i)))
  {
    SizesPush(k.codes, i, 0);
  }

  lemma SetOpenKeyKeeps(s: Script, k: Key)
    requires Inv(s) && s.mode == InKey && KeyOk(k) && InstrsOk(k.codes, |s.keys|, |s.subs|)
    requires !k.defined && k.initlen > 0
    ensures Inv(SetKey(s, k)) && SetKey(s, k).mode == InKey
  {
  }

  lemma KeyNow(s: Script)
    requires Inv(s) && s.mode == InKey
    ensures s.key < |s.keys|
    ensures var k := s.keys[s.key].item;
            && KeyOk(k) && InstrsOk(k.codes, |s.keys|, |s.subs|)
            && k.initlen > 0 && !k.defined
  {
  }

  lemma StoreCodeKeeps(s: Script, i: Instr)
    requires Inv(s) && s.mode == InKey && InstrOk(i, |s.keys|, |s.subs|)
    ensures var s' := StoreCode(s, i); Inv(s') && s'.mode == InKey
  {
    var k := s.keys[s.key].item;
    KeyNow(s);
    if k.retstrlen + Size(i) - k.initlen <= MAX_RET_CODE {
      var k' := k.(codes := k.codes + [i], retstrlen := k.retstrlen + Size(i));
      AddCodeKeeps(k, i);
      InstrsOkPush(k.codes, i, |s.keys|, |s.subs|);
      SetOpenKeyKeeps(s, k');
      assert StoreCode(s, i) == SetKey(s, k');
    } else {
      assert StoreCode(s, i) == s;
    }
  }

  /** A code is stored if and only if the codes of the key keep within their 20 bytes. */
  lemma StoreCodeStores(s: Script, i: Instr)
    requires Inv(s) && s.mode == InKey
    ensures var q := s.keys[s.key].item.codes;
            var s' := StoreCode(s, i);
            && |s'.keys| == |s.keys|
            && s'.keys[s.key].item.codes == if Sizes(q, 0) + Size(i) <= MAX_RET_CODE then q + [i] else q
  {
    assert KeyOk(s.keys[s.key].item);
  }

  lemma ReturncodeKeeps(s: Script, line: Line)
    requires Inv(s) && s.mode == InKey && line.tokens != []
    ensures var p := ProcessReturncode(s, line); Inv(p.s) && p.s.mode == InKey
  {
    match CommandByName(KEY_COMMANDS, line.tokens[0])
    case None =>
    case Some(c) =>
      var w := Write(s, c, line);
      WriteOk(s, c, line);
      GrownKeeps(s, w.s);
      StoreCodeKeeps(w.s, w.instr);
  }

  lemma EndKeyKeeps(s: Script)
    requires Inv(s) && s.mode == InKey
    ensures Inv(EndKey(s))
  {
    var k := s.keys[s.key].item;
    assert KeyOk(k) && 5 <= k.retstrlen <= 50;
  }

  lemma InKeyKeeps(s: Script, line: Line)
    requires Inv(s) && s.mode == InKey && line.tokens != []
    ensures Inv(ProcessInKey(s, line))
  {
    var s' := ProcessReturncode(s, line).s;
    ReturncodeKeeps(s, line);
    EndKeyKeeps(s');
  }

  // ---------- lines of a subscript ----------

  lemma StoreInstrKeeps(s: Script, i: Instr)
    requires Inv(s) && s.mode == InSub && InstrOk(i, |s.keys|, |s.subs|) && !i.IfHeader? && !i.IfGoto?
    ensures var p := StoreInstr(s, i); Inv(p.s) && p.s.mode == InSub
  {
    var b := s.subs[s.sub].item;
    OpenNow(s);
    AddKeeps(b, s.sub, i);
    InstrsOkPush(b.instrs, i, |s.keys|, |s.subs|);
    SetOpenKeeps(s, AddInstr(b, i));
    assert SetSub(s, AddInstr(b, i)).(mode := InSub) == SetSub(s, AddInstr(b, i));
  }

  /** An instruction is stored if and only if the subscript keeps within its limit. */
  lemma StoreInstrStores(s: Script, i: Instr)
    requires Inv(s) && (s.mode == InSub || s.mode == InIf)
    ensures var q := s.subs[s.sub].item.instrs;
            var p := StoreInstr(s, i);
            && |p.s.subs| == |s.subs|
            && p.done == (HeaderLen(s.sub) + Sizes(q, 1) + Size(i) + 1
                          <= if s.sub != 0 then MAX_SUB_LEN else MAX_MAIN_LEN)
            && p.s.subs[s.sub].item.instrs == if p.done then q + [i] else q
  {
    assert SubOk(s.subs[s.sub].item, s.sub, PlaceOf(s, s.sub));
  }

  lemma OpcodeKeeps(s: Script, line: Line)
    requires Inv(s) && s.mode == InSub && line.tokens != []
    ensures var p := ProcessOpcode(s, line); Inv(p.s) && p.s.mode == InSub
  {
    match CommandByName(SUB_COMMANDS, line.tokens[0])
    case None =>
    case Some(c) =>
      var w := Write(s, c, line);
      WriteOk(s, c, line);
      GrownKeeps(s, w.s);
      StoreInstrKeeps(w.s, w.instr);
  }

  function Ended(b: Sub, id: nat): Sub {
    var count := if id != 0 then b.inscount % 256 else b.storedCount;
    b.(defined := true, length := (b.datalen - 2) % 256, storedCount := count)
  }

  lemma EndKeeps(b: Sub, id: nat)
    requires SubOk(b, id, Open)
    ensures SubOk(Ended(b, id), id, Closed)
  {
  }

  lemma EndSubKeeps(s: Script)
    requires Inv(s) && s.mode == InSub
    ensures Inv(EndSub(s))
  {
    var b := s.subs[s.sub].item;
    OpenNow(s);
    EndKeeps(b, s.sub);
    SetSubKeeps(s, Ended(b, s.sub), Normal);
    assert EndSub(s) == SetSub(s, Ended(b, s.sub)).(mode := Normal);
  }

  lemma AddHeaderKeeps(b: Sub, id: nat, event: nat)
    requires SubOk(b, id, Open)
    ensures SubOk(AddInstr(b, IfHeader(event, 0)).(ifAt := |b.instrs|, ifinscount := 0), id, InsideIf)
  {
    var h := IfHeader(event, 0);
    SizesPush(b.instrs, h, 1);
    assert (b.instrs + [h])[..|b.instrs|] == b.instrs;
  }

  lemma BeginIfKeeps(s: Script, toks: seq<string>)
    requires Inv(s) && s.mode == InSub
    ensures Inv(BeginIf(s, toks))
  {
    if |toks| >= 2 && EventByName(toks[1]) >= 1 && Word(toks, 2, "THEN") {
      var b, e := s.subs[s.sub].item, EventByName(toks[1]);
      OpenNow(s);
      AddHeaderKeeps(b, s.sub, e);
      InstrsOkPush(b.instrs, IfHeader(e, 0), |s.keys|, |s.subs|);
      SetInsideKeeps(s, AddInstr(b, IfHeader(e, 0)).(ifAt := |b.instrs|, ifinscount := 0));
    }
  }

  lemma InSubKeeps(s: Script, line: Line)
    requires Inv(s) && s.mode == InSub && line.tokens != []
    ensures Inv(ProcessInSub(s, line))
  {
    OpcodeKeeps(s, line);
    var p := ProcessOpcode(s, line);
    EndSubKeeps(p.s);
    BeginIfKeeps(p.s, line.tokens);
  }

  // ---------- lines of an IF ----------

  /** One more instruction inside of the open IF. */
  function AddInside(b: Sub, i: Instr): Sub {
    AddInstr(b, i).(ifinscount := b.ifinscount + 1)
  }

  lemma SetAddedInside(s: Script, i: Instr)
    requires Inv(s) && s.mode == InIf && InstrOk(i, |s.keys|, |s.subs|) && !i.IfHeader?
    requires i.IfGoto? ==> i.event == s.subs[s.sub].item.instrs[s.subs[s.sub].item.ifAt].event
    ensures Inv(SetSub(s, AddInside(s.subs[s.sub].item, i)))
  {
    var b := s.subs[s.sub].item;
    InsideNow(s);
    AddInsideKeeps(b, s.sub, i);
    InstrsOkPush(b.instrs, i, |s.keys|, |s.subs|);
    SetInsideKeeps(s, AddInside(b, i));
    assert SetSub(s, AddInside(b, i)).(mode := InIf) == SetSub(s, AddInside(b, i));
  }

  lemma StoreInsideKeeps(s: Script, i: Instr)
    requires Inv(s) && s.mode == InIf && InstrOk(i, |s.keys|, |s.subs|) && !i.IfHeader? && !i.IfGoto?
    ensures var p := StoreInstr(s, i);
            && p.s.mode == InIf
            && (!p.done ==> p.s == s)
            && (p.done ==> Inv(CountInIf(p.s)))
  {
    SetAddedInside(s, i);
    var p := StoreInstr(s, i);
    assert p.done ==> CountInIf(p.s) == SetSub(s, AddInside(s.subs[s.sub].item, i));
  }

  lemma OpcodeInsideKeeps(s: Script, line: Line)
    requires Inv(s) && s.mode == InIf && line.tokens != []
    ensures var p := ProcessOpcode(s, line);
            && p.s.mode == InIf
            && (!p.done ==> Inv(p.s))
            && (p.done ==> Inv(CountInIf(p.s)))
  {
    match CommandByName(SUB_COMMANDS, line.tokens[0])
    case None =>
    case Some(c) =>
      var w := Write(s, c, line);
      WriteOk(s, c, line);
      GrownKeeps(s, w.s);
      StoreInsideKeeps(w.s, w.instr);
  }

  lemma {:induction false} SizesUpdate(q: seq<Instr>, at: nat, i: Instr, separator: nat)
    requires at < |q| && Size(q[at]) == Size(i)
    ensures Sizes(q[at := i], separator) == Sizes(q, separator)
  {
    var n := |q| - 1;
    assert q[at := i][..n] == if at < n then q[..n][at := i] else q[..n];
    if at < n {
      SizesUpdate(q[..n], at, i, separator);
    }
  }

  lemma CloseIf(b: Sub, id: nat)
    requires SubOk(b, id, InsideIf)
    ensures var h := IfHeader(b.instrs[b.ifAt].event, b.ifinscount % 256);
            SubOk(b.(defined := true, instrs := b.instrs[b.ifAt := h]), id, Open)
  {
    var h := IfHeader(b.instrs[b.ifAt].event, b.ifinscount % 256);
    SizesUpdate(b.instrs, b.ifAt, h, 1);
    if b.inscount < 256 {
      ParsesClosed(b.instrs, b.ifAt, h);
    }
  }

  lemma EndIfKeeps(s: Script)
    requires Inv(s) && s.mode == InIf
    ensures Inv(EndIf(s))
  {
    var b := s.subs[s.sub].item;
    InsideNow(s);
    CloseIf(b, s.sub);
    var q := b.instrs;
    assert InstrOk(q[b.ifAt], |s.keys|, |s.subs|);
    SetOpenKeeps(s, b.(defined := true, instrs := q[b.ifAt := IfHeader(q[b.ifAt].event, b.ifinscount % 256)]));
  }

  lemma StoreIfGotoKeeps(s: Script, at: nat)
    requires Inv(s) && s.mode == InIf
    ensures Inv(StoreIfGoto(s, at))
  {
    if at < |s.subs| {
      var b := s.subs[s.sub].item;
      InsideNow(s);
      assert InstrOk(b.instrs[b.ifAt], |s.keys|, |s.subs|);
      var i := IfGoto(b.instrs[b.ifAt].event, s.subs[at].id);
      SetAddedInside(s, i);
      assert StoreIfGoto(s, at) == SetSub(s, AddInside(b, i));
    }
  }

  lemma IfGotoKeeps(s: Script, toks: seq<string>)
    requires Inv(s) && s.mode == InIf
    ensures Inv(IfGotoLine(s, toks))
  {
    match QuotedAt(toks, 1, 79)
    case None =>
    case Some(name) =>
      var (s', at) := GetSub(s, name);
      GetSubGrows(s, name);
      GrownKeeps(s, s');
      if at.Some? {
        StoreIfGotoKeeps(s', at.value);
      }
  }

  lemma InIfKeeps(s: Script, line: Line)
    requires Inv(s) && s.mode == InIf && line.tokens != []
    ensures Inv(ProcessInIf(s, line))
  {
    OpcodeInsideKeeps(s, line);
    var p := ProcessOpcode(s, line);
    if !p.done {
      EndIfKeeps(p.s);
      IfGotoKeeps(p.s, line.tokens);
    }
  }

  // ---------- whole files ----------

  lemma {:induction false} AfterKeeps(lines: seq<Line>)
    ensures Inv(After(lines))
  {
    if lines == [] {
      assert After(lines).subs == [Entry("main", 0, NO_SUB)];
    } else {
      var s := After(lines[..|lines| - 1]);
      var line := lines[|lines| - 1];
      AfterKeeps(lines[..|lines| - 1]);
      if line.tokens != [] {
        match s.mode
        case Normal => NormalKeeps(s, line, Process(s, line));
        case InKey => InKeyKeeps(s, line);
        case InSub => InSubKeeps(s, line);
        case InIf => InIfKeeps(s, line);
      }
    }
  }
}
