/** Numbers that are written are those of the named entries, and tables only grow: a name
    keeps its number over any further lines. */
module AdsiNames {
  import opened Basics
  import opened AdsiScript
  import opened AdsiLinks
  import opened AdsiSteps

  ghost predicate AllExtend(s': Script, s: Script) {
    && Extends(s'.keys, s.keys) && Extends(s'.subs, s.subs)
    && Extends(s'.states, s.states) && Extends(s'.displays, s.displays) && Extends(s'.flags, s.flags)
  }

  lemma GrownExtends(s: Script, s': Script)
    requires Grown(s, s')
    ensures AllExtend(s', s)
  {
    assert forall i :: 0 <= i < |s.keys| ==> s'.keys[i] == s'.keys[..|s.keys|][i];
    assert forall i :: 0 <= i < |s.subs| ==> s'.subs[i] == s'.subs[..|s.subs|][i];
  }

  lemma AllExtendTrans(a: Script, b: Script, c: Script)
    requires AllExtend(b, a) && AllExtend(c, b)
    ensures AllExtend(c, a)
  {
  }

  lemma OpeningExtends(s: Script, at: nat, toks: seq<string>)
    ensures AllExtend(OpenKey(s, at, toks), s) && AllExtend(OpenSub(s, at, toks), s)
  {
  }

  lemma StoringExtends(s: Script, i: Instr)
    ensures AllExtend(StoreCode(s, i), s) && AllExtend(StoreInstr(s, i).s, s)
  {
  }

  lemma IfExtends(s: Script, at: nat)
    ensures AllExtend(StoreIfGoto(s, at), s) && AllExtend(CountInIf(s), s) && AllExtend(EndIf(s), s)
  {
  }

  lemma EndingExtends(s: Script)
    ensures AllExtend(EndKey(s), s) && AllExtend(EndSub(s), s)
  {
  }

  lemma BeginIfExtends(s: Script, toks: seq<string>)
    ensures AllExtend(BeginIf(s, toks), s)
  {
  }

  lemma DeclaringExtends(s: Script, toks: seq<string>)
    requires TablesOk(s)
    ensures AllExtend(DeclareState(s, toks), s)
    ensures AllExtend(DeclareFlag(s, toks), s)
    ensures AllExtend(DeclareDisplay(s, toks), s)
  {
  }

  lemma BeginningExtends(s: Script, toks: seq<string>)
    requires TablesOk(s)
    ensures AllExtend(BeginKey(s, toks), s) && AllExtend(BeginSub(s, toks), s)
  {
    match QuotedAt(toks, 1, 255)
    case None =>
    case Some(name) =>
      var (k, atK) := GetKey(s, name);
      GetKeyGrows(s, name);
      GrownExtends(s, k);
      var (b, atB) := GetSub(s, name);
      GetSubGrows(s, name);
      GrownExtends(s, b);
      if atK.Some? {
        OpeningExtends(k, atK.value, toks);
        AllExtendTrans(s, k, BeginKey(s, toks));
      }
      if atB.Some? {
        OpeningExtends(b, atB.value, toks);
        AllExtendTrans(s, b, BeginSub(s, toks));
      }
  }

  lemma NormalExtends(s: Script, line: Line, s': Script)
    requires TablesOk(s) && line.tokens != [] && s' == ProcessNormal(s, line)
    ensures AllExtend(s', s)
  {
    var keyword := line.tokens[0];
    if Same(keyword, "KEY") || Same(keyword, "SUB") {
      BeginningExtends(s, line.tokens);
    } else {
      DeclaringExtends(s, line.tokens);
    }
  }

  lemma CommandExtends(s: Script, c: Command, line: Line)
    requires TablesOk(s) && line.tokens != []
    ensures var w := Write(s, c, line);
            AllExtend(StoreInstr(w.s, w.instr).s, s) && AllExtend(StoreCode(w.s, w.instr), s)
  {
    var w := Write(s, c, line);
    WriteOk(s, c, line);
    GrownExtends(s, w.s);
    StoringExtends(w.s, w.instr);
    AllExtendTrans(s, w.s, StoreInstr(w.s, w.instr).s);
    AllExtendTrans(s, w.s, StoreCode(w.s, w.instr));
  }

  lemma OpcodeExtends(s: Script, line: Line)
    requires TablesOk(s) && line.tokens != []
    ensures AllExtend(ProcessOpcode(s, line).s, s)
  {
    match CommandByName(SUB_COMMANDS, line.tokens[0])
    case None =>
    case Some(c) => CommandExtends(s, c, line);
  }

  lemma ReturncodeExtends(s: Script, line: Line)
    requires TablesOk(s) && line.tokens != []
    ensures AllExtend(ProcessReturncode(s, line).s, s)
  {
    match CommandByName(KEY_COMMANDS, line.tokens[0])
    case None =>
    case Some(c) => CommandExtends(s, c, line);
  }

  lemma IfGotoExtends(s: Script, toks: seq<string>)
    requires TablesOk(s)
    ensures AllExtend(IfGotoLine(s, toks), s)
  {
    match QuotedAt(toks, 1, 79)
    case None =>
    case Some(name) =>
      var (s', at) := GetSub(s, name);
      GetSubGrows(s, name);
      GrownExtends(s, s');
      if at.Some? {
        IfExtends(s', at.value);
        AllExtendTrans(s, s', IfGotoLine(s, toks));
      }
  }

  lemma InKeyExtends(s: Script, line: Line)
    requires TablesOk(s) && line.tokens != []
    ensures AllExtend(ProcessInKey(s, line), s)
  {
    var p := ProcessReturncode(s, line);
    ReturncodeExtends(s, line);
    EndingExtends(p.s);
    AllExtendTrans(s, p.s, ProcessInKey(s, line));
  }

  lemma InSubExtends(s: Script, line: Line)
    requires TablesOk(s) && line.tokens != []
    ensures AllExtend(ProcessInSub(s, line), s)
  {
    var p := ProcessOpcode(s, line);
    OpcodeExtends(s, line);
    EndingExtends(p.s);
    BeginIfExtends(p.s, line.tokens);
    AllExtendTrans(s, p.s, ProcessInSub(s, line));
  }

  lemma InIfExtends(s: Script, line: Line)
    requires Inv(s) && s.mode == InIf && line.tokens != []
    ensures AllExtend(ProcessInIf(s, line), s)
  {
    var p := ProcessOpcode(s, line);
    OpcodeExtends(s, line);
    IfExtends(p.s, 0);
    if !p.done {
      OpcodeInsideKeeps(s, line);
      IfGotoExtends(p.s, line.tokens);
    }
    AllExtendTrans(s, p.s, ProcessInIf(s, line));
  }

  lemma ProcessExtends(s: Script, line: Line)
    requires Inv(s)
    ensures AllExtend(Process(s, line), s)
  {
    if line.tokens != [] {
      match s.mode
      case Normal => NormalExtends(s, line, Process(s, line));
      case InKey => InKeyExtends(s, line);
      case InSub => InSubExtends(s, line);
      case InIf => InIfExtends(s, line);
    }
  }

  lemma {:induction false} LinesExtend(lines: seq<Line>, more: seq<Line>)
    ensures AllExtend(After(lines + more), After(lines))
    decreases |more|
  {
    if more == [] {
      assert lines + more == lines;
    } else {
      var n := |more| - 1;
      assert (lines + more)[..|lines + more| - 1] == lines + more[..n];
      LinesExtend(lines, more[..n]);
      AfterKeeps(lines + more[..n]);
      ProcessExtends(After(lines + more[..n]), more[n]);
    }
  }

  /** A subscript that was found by its name is found under the same number after any further
      lines, and no other entry has that number. */
  lemma NamesKeepNumbers(lines: seq<Line>, more: seq<Line>, name: string)
    requires Find(After(lines).subs, name) < |After(lines).subs|
    ensures var s, s' := After(lines), After(lines + more);
            var i := Find(s.subs, name);
            && Find(s'.subs, name) == i < |s'.subs| && s'.subs[i].id == s.subs[i].id
            && forall j :: 0 <= j < |s'.subs| && s'.subs[j].id == s.subs[i].id ==> j == i
  {
    LinesExtend(lines, more);
    AfterKeeps(lines + more);
    FindInExtension(After(lines).subs, After(lines + more).subs, name);
  }

  // ---------- the number of a name ----------

  /** The entry that a name of a script stands for: names are compared without regard to case,
      and a name that is too long is stored cut. */
  ghost predicate Denotes<T>(t: seq<Entry<T>>, i: nat, name: string) {
    i < |t| && (Same(t[i].name, name) || (|name| > NAME_LEN && t[i].name == Stored(name)))
  }

  lemma SameAsItself(name: string)
    ensures Same(name, name)
  {
  }

  lemma GetDenotes<T>(t: seq<Entry<T>>, name: string, max: nat, first: nat, item: T)
    requires TableOk(t, max, first)
    ensures var f := Get(t, name, max, first, item);
            f.at.Some? ==> Denotes(f.t, f.at.value, name) && f.t[f.at.value].id == first + f.at.value
  {
    SameAsItself(name);
  }

  /** GOTO of a soft key and ONEVENT of a subscript write the number of the named
      subscript. */
  lemma TargetIsNamed(s: Script, args: seq<string>)
    requires TablesOk(s)
    ensures var w := Subscript(s, args);
            w.instr.CallSub? ==>
              args != [] && Quoted(args[0], 79).Some? && Denotes(w.s.subs, w.instr.sub, Quoted(args[0], 79).value)
    ensures var w := OnEventArgs(s, args);
            w.instr.OnEvent? ==>
              && args != [] && w.instr.event == EventByName(args[0])
              && var r := StatesFrom(s.states, args[1..], 0);
                 && r.Good? && r.rest != [] && Quoted(r.rest[0], 79).Some?
                 && Denotes(w.s.subs, w.instr.sub, Quoted(r.rest[0], 79).value)
                 && |w.instr.states| == r.count && forall n :: n in w.instr.states ==> n == 0
  {
    if args != [] {
      NamedTarget(s, Quoted(args[0], 79));
      match StatesFrom(s.states, args[1..], 0)
      case Bad =>
      case Good(_, rest) => NamedTarget(s, QuotedAt(rest, 0, 79));
    }
  }

  lemma NamedTarget(s: Script, name: Option<string>)
    requires TablesOk(s)
    ensures name.Some? ==> var (s', at) := GetSub(s, name.value);
                           at.Some? ==> Denotes(s'.subs, at.value, name.value) && s'.subs[at.value].id == at.value
  {
    if name.Some? {
      GetDenotes(s.subs, name.value, MAX_SUBS, 0, NO_SUB);
    }
  }

  /** The GOTO of an IF writes the event of the IF and the number of the named subscript. */
  lemma IfTargetIsNamed(s: Script, toks: seq<string>)
    requires Inv(s) && s.mode == InIf
    ensures var s' := IfGotoLine(s, toks);
            var q, q' := s.subs[s.sub].item.instrs, s'.subs[s.sub].item.instrs;
            q' == q || (&& Quoted(toks[1], 79).Some? && |q'| == |q| + 1 && q'[..|q|] == q
                        && q'[|q|].IfGoto? && q'[|q|].event == q[s.subs[s.sub].item.ifAt].event
                        && Denotes(s'.subs, q'[|q|].sub, Quoted(toks[1], 79).value))
  {
    match QuotedAt(toks, 1, 79)
    case None =>
    case Some(name) =>
      GetSubGrows(s, name);
      GrownKeeps(s, GetSub(s, name).0);
      NamedTarget(s, Some(name));
      assert SubOk(s.subs[s.sub].item, s.sub, InsideIf);
  }

  /** SHOWKEYS writes, for each token in turn, the number of the named soft key. */
  lemma {:induction false} KeysAreNamed(s: Script, op: Byte, args: seq<string>, keys: seq<KeyRef>)
    requires TablesOk(s) && |keys| <= 6
    ensures var w := ShowKeysFrom(s, op, args, keys);
            && w.instr.ShowKeys? && |keys| <= |w.instr.keys| <= |keys| + |args| && w.instr.keys[..|keys|] == keys
            && forall i :: |keys| <= i < |w.instr.keys| ==> KeyIsNamed(w.s, args[i - |keys|], w.instr.keys[i])
    decreases |args|
  {
    if args == [] || Same(args[0], "UNLESS") || |keys| > 5 {
    } else {
      match Quoted(args[0], 79)
      case None =>
        KeysAreNamed(s, op, args[1..], keys + [Unset]);
        KeysShifted(ShowKeysFrom(s, op, args, keys), args, keys, Unset);
      case Some(name) =>
        GetKeyGrows(s, name);
        var (s', at) := GetKey(s, name);
        if at.Some? {
          var k := Id(s'.keys[at.value].id);
          KeysAreNamed(s', op, args[1..], keys + [k]);
          var w := ShowKeysFrom(s', op, args[1..], keys + [k]);
          KeyStaysNamed(s, args[0], name, w.s, op, args[1..], keys + [k]);
          KeysShifted(w, args, keys, k);
        }
    }
  }

  /** The number of a key that was looked up stays that of its name while the others are. */
  lemma KeyStaysNamed(s: Script, tok: string, name: string, later: Script, op: Byte, args: seq<string>,
                      keys: seq<KeyRef>)
    requires TablesOk(s) && Quoted(tok, 79) == Some(name) && GetKey(s, name).1.Some?
    requires later == ShowKeysFrom(GetKey(s, name).0, op, args, keys).s
    ensures var (s', at) := GetKey(s, name); KeyIsNamed(later, tok, Id(s'.keys[at.value].id))
  {
    var (s', at) := GetKey(s, name);
    GetKeyGrows(s, name);
    GetDenotes(s.keys, name, MAX_KEYS, FIRST_KEY, NO_KEY);
    KeysGrow(s', op, args, keys);
  }

  lemma AllKeysAreNamed(s: Script, op: Byte, args: seq<string>, none: seq<KeyRef>)
    requires TablesOk(s) && none == []
    ensures var w := ShowKeysFrom(s, op, args, none);
            && w.instr.ShowKeys? && |w.instr.keys| <= |args|
            && forall i :: 0 <= i < |w.instr.keys| ==> KeyIsNamed(w.s, args[i], w.instr.keys[i])
  {
    KeysAreNamed(s, op, args, none);
    var w := ShowKeysFrom(s, op, args, none);
    forall i | 0 <= i < |w.instr.keys| ensures KeyIsNamed(w.s, args[i], w.instr.keys[i]) {
      assert KeyIsNamed(w.s, args[i - |none|], w.instr.keys[i]);
    }
  }

  ghost predicate KeyIsNamed(s: Script, tok: string, k: KeyRef) {
    match Quoted(tok, 79)
    case None => k == Unset
    case Some(name) => k.Id? && k.id >= FIRST_KEY && Denotes(s.keys, k.id - FIRST_KEY, name)
  }

  lemma KeysShifted(w: Written, args: seq<string>, keys: seq<KeyRef>, k: KeyRef)
    requires w.instr.ShowKeys? && args != [] && KeyIsNamed(w.s, args[0], k)
    requires |keys| + 1 <= |w.instr.keys| <= |keys| + |args| && w.instr.keys[..|keys| + 1] == keys + [k]
    requires forall i :: |keys| + 1 <= i < |w.instr.keys| ==>
               KeyIsNamed(w.s, args[1..][i - |keys| - 1], w.instr.keys[i])
    ensures w.instr.keys[..|keys|] == keys
    ensures forall i :: |keys| <= i < |w.instr.keys| ==> KeyIsNamed(w.s, args[i - |keys|], w.instr.keys[i])
  {
    assert w.instr.keys[|keys|] == w.instr.keys[..|keys| + 1][|keys|];
    assert w.instr.keys[..|keys|] == w.instr.keys[..|keys| + 1][..|keys|];
    forall i | |keys| < i < |w.instr.keys| ensures KeyIsNamed(w.s, args[i - |keys|], w.instr.keys[i]) {
      assert args[1..][i - |keys| - 1] == args[i - |keys|];
    }
  }

  lemma KeysGrow(s: Script, op: Byte, args: seq<string>, keys: seq<KeyRef>)
    requires TablesOk(s)
    ensures Extends(ShowKeysFrom(s, op, args, keys).s.keys, s.keys)
    decreases |args|
  {
    if !(args == [] || Same(args[0], "UNLESS") || |keys| > 5) {
      match Quoted(args[0], 79)
      case None => KeysGrow(s, op, args[1..], keys + [Unset]);
      case Some(name) =>
        GetKeyGrows(s, name);
        GrownExtends(s, GetKey(s, name).0);
        var (s', at) := GetKey(s, name);
        if at.Some? {
          KeysGrow(s', op, args[1..], keys + [Id(s'.keys[at.value].id)]);
        }
    }
  }

  /** The flag that SHOWKEYS writes for an UNLESS clause is the declared one of that name; 0
      stands for no flag. */
  lemma FlagIsNamed(s: Script, args: seq<string>)
    requires TablesOk(s)
    ensures var n := UnlessFlag(s.flags, args);
            var name := QuotedAt(args, 0, 79);
            if n == 0 then name.None? || Find(s.flags, name.value) == |s.flags|
            else n <= |s.flags| && name.Some? && Denotes(s.flags, n - 1, name.value)
  {
    match QuotedAt(args, 0, 79)
    case None =>
    case Some(name) =>
      var i := Find(s.flags, name);
      assert i < |s.flags| ==> s.flags[i].id == i + 1;
  }
}
