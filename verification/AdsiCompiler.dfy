/**
 The compiler as the source runs it: tables and records are changed in place while the file
 is read line by line.
 */
module AdsiCompiler {
  import opened Basics
  import opened AdsiScript
  import opened AdsiLinks
  import opened AdsiSteps
  import opened AdsiNames
  import opened AdsiResults

  class Compiler {
    var mode: Mode
    var keys: seq<Entry<Key>>
    var subs: seq<Entry<Sub>>
    var states: seq<Entry<()>>
    var displays: seq<Entry<Display>>
    var flags: seq<Entry<()>>
    var key: nat
    var sub: nat

    ghost function Abs(): Script
      reads this
    {
      Script(mode, keys, subs, states, displays, flags, key, sub)
    }

    /** The invariant of the compiler. */
    ghost predicate Valid()
      reads this
    {
      Inv(Abs())
    }

    /** A script begins with an undefined subscript that is called main. */
    constructor ()
      ensures Abs() == After([]) && Valid()
    {
      mode, keys, states, displays, flags, key, sub := Normal, [], [], [], [], 0, 0;
      subs := [Entry("main", 0, NO_SUB)];
      new;
      AfterKeeps([]);
    }

    /** The loop over a table that every lookup begins with. */
    static method FindByName<T>(t: seq<Entry<T>>, name: string) returns (x: nat)
      ensures x == Find(t, name)
    {
      x := 0;
      while x < |t|
        invariant x <= |t| && Find(t, name) == x + Find(t[x..], name)
      {
        var same := SameAs(t[x].name, name);
        if same {
          return x;
        }
        x := x + 1;
      }
    }

    /** The comparison of two strings without regard to case. */
    static method SameAs(a: string, b: string) returns (same: bool)
      ensures same == Same(a, b)
    {
      var i := 0;
      while i < |a| && i < |b| && Lower(a[i]) == Lower(b[i])
        invariant i <= |a| && i <= |b|
        invariant forall j :: 0 <= j < i ==> Lower(a[j]) == Lower(b[j])
      {
        i := i + 1;
      }
      return i == |a| == |b|;
    }

    method GetKeyByName(name: string) returns (at: Option<nat>)
      requires Valid()
      modifies this`keys
      ensures (Abs(), at) == GetKey(old(Abs()), name)
      ensures Valid() && Grown(old(Abs()), Abs())
      ensures at.Some? ==> Denotes(keys, at.value, name) && keys[at.value].id == FIRST_KEY + at.value
    {
      GetKeyGrows(Abs(), name);
      GrownKeeps(Abs(), GetKey(Abs(), name).0);
      GetDenotes(keys, name, MAX_KEYS, FIRST_KEY, NO_KEY);
      var x := FindByName(keys, name);
      if x < |keys| {
        return Some(x);
      }
      if |keys| > 61 {
        return None;
      }
      keys := keys + [Entry(Stored(name), |keys| + 2, NO_KEY)];
      return Some(|keys| - 1);
    }

    method GetSubByName(name: string) returns (at: Option<nat>)
      requires Valid()
      modifies this`subs
      ensures (Abs(), at) == GetSub(old(Abs()), name)
      ensures Valid() && Grown(old(Abs()), Abs())
      ensures at.Some? ==> Denotes(subs, at.value, name) && subs[at.value].id == at.value
    {
      GetSubGrows(Abs(), name);
      GrownKeeps(Abs(), GetSub(Abs(), name).0);
      GetDenotes(subs, name, MAX_SUBS, 0, NO_SUB);
      var x := FindByName(subs, name);
      if x < |subs| {
        return Some(x);
      }
      if |subs| > 127 {
        return None;
      }
      subs := subs + [Entry(Stored(name), |subs|, NO_SUB)];
      return Some(|subs| - 1);
    }

    // ---------- arguments ----------

    method SubscriptArgs(args: seq<string>) returns (instr: Instr)
      requires Valid()
      modifies this`subs
      ensures Written(Abs(), instr) == Subscript(old(Abs()), args)
      ensures Valid() && (instr.CallSub? ==> Denotes(subs, instr.sub, Quoted(args[0], 79).value))
    {
      TargetIsNamed(Abs(), args);
      var name := QuotedAt(args, 0, 79);
      if name.None? {
        return NOTHING;
      }
      var at := GetSubByName(name.value);
      if at.None? {
        return NOTHING;
      }
      return CallSub(subs[at.value].id);
    }

    method ShowKeysArgs(op: Byte, args: seq<string>) returns (instr: Instr)
      requires Valid()
      modifies this`keys
      ensures Written(Abs(), instr) == ShowKeysFrom(old(Abs()), op, args, [])
      ensures Valid() && instr.ShowKeys? && |instr.keys| <= |args|
      ensures forall i :: 0 <= i < |instr.keys| ==> KeyIsNamed(Abs(), args[i], instr.keys[i])
    {
      AllKeysAreNamed(Abs(), op, args, []);
      var x, shown: seq<KeyRef> := 0, [];
      while x < |args|
        invariant x <= |args| && Valid()
        invariant ShowKeysFrom(old(Abs()), op, args, []) == ShowKeysFrom(Abs(), op, args[x..], shown)
      {
        var rest := args[x..];
        assert rest[0] == args[x] && rest[1..] == args[x + 1..];
        var unless := SameAs(args[x], "UNLESS");
        if unless {
          return ShowKeys(op, UnlessFlag(flags, args[x + 1..]), shown);
        }
        if |shown| > 5 {
          return ShowKeys(op, 0, shown);
        }
        var name := Quoted(args[x], 79);
        if name.None? {
          shown := shown + [Unset];
        } else {
          var at := GetKeyByName(name.value);
          if at.None? {
            return ShowKeys(op, 0, shown);
          }
          shown := shown + [Id(keys[at.value].id)];
        }
        x := x + 1;
      }
      return ShowKeys(op, 0, shown);
    }

    /** The loop over the states of an IN clause. */
    method InClause(args: seq<string>) returns (r: States)
      ensures r == StatesFrom(states, args, 0)
    {
      var tok, count := 0, 0;
      while tok < |args|
        invariant tok <= |args| && count <= 8
        invariant StatesFrom(states, args, 0) == StatesFrom(states, args[tok..], count)
      {
        assert args[tok..][0] == args[tok];
        var goesOn := SameAs(args[tok], if count == 0 then "IN" else "OR");
        if !goesOn {
          assert args[tok..][1..] == args[tok + 1..];
          return Good(count, args[tok + 1..]);
        }
        if count > 7 || tok + 1 == |args| {
          return Bad;
        }
        assert args[tok..][1] == args[tok + 1] && args[tok..][2..] == args[tok + 2..];
        var name := Quoted(args[tok + 1], 80);
        if name.None? {
          return Bad;
        }
        var x := FindByName(states, name.value);
        if x == |states| {
          return Bad;
        }
        count := count + 1;
        if tok + 2 == |args| {
          return Good(count, []);
        }
        tok := tok + 2;
      }
      return Bad;
    }

    method OnEventCommand(args: seq<string>) returns (instr: Instr)
      requires Valid()
      modifies this`subs
      ensures Written(Abs(), instr) == OnEventArgs(old(Abs()), args)
      ensures Valid()
    {
      if args == [] || EventByName(args[0]) < 1 {
        return NOTHING;
      }
      var r := InClause(args[1..]);
      if r.Bad? {
        return NOTHING;
      }
      var name := QuotedAt(r.rest, 0, 79);
      if name.None? {
        return NOTHING;
      }
      var at := GetSubByName(name.value);
      if at.None? {
        return NOTHING;
      }
      return OnEvent(EventByName(args[0]), subs[at.value].id, Zeros(r.count));
    }

    /** The functions of the command tables. */
    method AddArgs(c: Command, line: Line) returns (instr: Instr)
      requires Valid() && line.tokens != []
      modifies this`keys, this`subs
      ensures Written(Abs(), instr) == Write(old(Abs()), c, line)
      ensures Valid() && WrittenOk(old(Abs()), Written(Abs(), instr))
    {
      WriteOk(Abs(), c, line);
      match c.args
      case NoArgs => instr := Plain([c.id]);
      case PlainArgs => instr := Plain(line.plain);
      case KeyArgs => instr := ShowKeysArgs(c.id, line.tokens[1..]);
      case SubArgs => instr := SubscriptArgs(line.tokens[1..]);
      case EventArgs => instr := OnEventCommand(line.tokens[1..]);
    }

    /** The loop over a command table. */
    static method FindCommand(cmds: seq<Command>, name: string) returns (c: Option<Command>)
      ensures c == CommandByName(cmds, name)
    {
      var x := 0;
      while x < |cmds|
        invariant x <= |cmds| && CommandByName(cmds, name) == CommandByName(cmds[x..], name)
      {
        var same := SameAs(cmds[x].name, name);
        if same {
          return Some(cmds[x]);
        }
        x := x + 1;
      }
      return None;
    }

    // ---------- commands ----------

    /** The code is stored if and only if the codes of the key keep within 20 bytes. */
    method WriteCode(i: Instr)
      requires Valid() && mode == InKey && InstrOk(i, |keys|, |subs|)
      modifies this`keys
      ensures Abs() == StoreCode(old(Abs()), i)
      ensures Valid()
      ensures var codes := old(keys[key].item.codes);
              keys[key].item.codes == if Sizes(codes, 0) + Size(i) <= MAX_RET_CODE then codes + [i] else codes
    {
      ghost var s := Abs();
      if key < |keys| {
        var k := keys[key].item;
        if k.retstrlen + Size(i) - k.initlen <= MAX_RET_CODE {
          keys := keys[key := keys[key].(item := k.(codes := k.codes + [i], retstrlen := k.retstrlen + Size(i)))];
        }
      }
      assert Abs() == StoreCode(s, i);
      StoreCodeKeeps(s, i);
      StoreCodeStores(s, i);
    }

    method ProcessReturncodeLine(line: Line) returns (done: bool)
      requires Valid() && mode == InKey && line.tokens != []
      modifies this`keys, this`subs
      ensures Processed(Abs(), done) == ProcessReturncode(old(Abs()), line)
      ensures Valid()
    {
      var c := FindCommand(KEY_COMMANDS, line.tokens[0]);
      if c.None? {
        return false;
      }
      var i := AddArgs(c.value, line);
      WriteCode(i);
      return true;
    }

    /** The instruction is stored if and only if the subscript keeps within its limit. */
    method WriteInstr(i: Instr) returns (done: bool)
      requires Valid() && (mode == InSub || mode == InIf)
      modifies this`subs
      ensures Processed(Abs(), done) == StoreInstr(old(Abs()), i)
      ensures var q := old(subs[sub].item.instrs);
              && done == (HeaderLen(sub) + Sizes(q, 1) + Size(i) + 1 <= if sub != 0 then MAX_SUB_LEN else MAX_MAIN_LEN)
              && subs[sub].item.instrs == if done then q + [i] else q
    {
      StoreInstrStores(Abs(), i);
      if sub >= |subs| {
        return false;
      }
      var e := subs[sub];
      if e.item.datalen + Size(i) + 1 > if e.id != 0 then MAX_SUB_LEN else MAX_MAIN_LEN {
        return false;
      }
      subs := subs[sub := e.(item := AddInstr(e.item, i))];
      return true;
    }

    method ProcessOpcodeLine(line: Line) returns (done: bool)
      requires Valid() && (mode == InSub || mode == InIf) && line.tokens != []
      modifies this`keys, this`subs
      ensures Processed(Abs(), done) == ProcessOpcode(old(Abs()), line)
      ensures if mode == InSub || !done then Valid() else Inv(CountInIf(Abs()))
    {
      if mode == InSub {
        OpcodeKeeps(Abs(), line);
      } else {
        OpcodeInsideKeeps(Abs(), line);
      }
      var c := FindCommand(SUB_COMMANDS, line.tokens[0]);
      if c.None? {
        return false;
      }
      var i := AddArgs(c.value, line);
      done := WriteInstr(i);
    }

    // ---------- definitions ----------

    method KeyLine(toks: seq<string>)
      requires Valid() && mode == Normal
      modifies this`keys, this`key, this`mode
      ensures Abs() == BeginKey(old(Abs()), toks)
      ensures Valid()
    {
      BeginKeyKeeps(Abs(), toks);
      var name := QuotedAt(toks, 1, 255);
      if name.None? {
        return;
      }
      var at := GetKeyByName(name.value);
      if at.None? {
        return;
      }
      key := at.value;
      if keys[key].item.defined {
        return;
      }
      var names := KeyNames(toks);
      if names.None? {
        return;
      }
      keys := keys[key := keys[key].(item := KeyHeader(keys[key].item, names.value.0, names.value.1))];
      mode := InKey;
    }

    method SubLine(toks: seq<string>)
      requires Valid() && mode == Normal
      modifies this`subs, this`sub, this`mode
      ensures Abs() == BeginSub(old(Abs()), toks)
      ensures Valid()
    {
      BeginSubKeeps(Abs(), toks);
      var name := QuotedAt(toks, 1, 255);
      if name.None? {
        return;
      }
      var at := GetSubByName(name.value);
      if at.None? {
        return;
      }
      sub := at.value;
      var e := subs[sub];
      if e.item.defined {
        return;
      }
      subs := subs[sub := e.(item := e.item.(instrs := [], datalen := if e.id != 0 then 7 else 3))];
      if Word(toks, 2, "IS") {
        mode := InSub;
      }
    }

    method StateLine(toks: seq<string>)
      requires Valid() && mode == Normal
      modifies this`states
      ensures Abs() == DeclareState(old(Abs()), toks)
      ensures Valid() && Extends(states, old(states))
    {
      DeclareKeeps(Abs(), toks);
      var name := QuotedAt(toks, 1, 255);
      if name.Some? {
        var x := FindByName(states, name.value);
        if x == |states| && |states| <= 253 {
          states := states + [Entry(Stored(name.value), |states| + 1, ())];
        }
      }
    }

    method FlagLine(toks: seq<string>)
      requires Valid() && mode == Normal
      modifies this`flags
      ensures Abs() == DeclareFlag(old(Abs()), toks)
      ensures Valid() && Extends(flags, old(flags))
    {
      DeclareKeeps(Abs(), toks);
      var name := QuotedAt(toks, 1, 255);
      if name.Some? {
        var x := FindByName(flags, name.value);
        if x == |flags| && |flags| <= 6 {
          flags := flags + [Entry(Stored(name.value), |flags| + 1, ())];
        }
      }
    }

    method DisplayLine(toks: seq<string>)
      requires Valid() && mode == Normal
      modifies this`displays
      ensures Abs() == DeclareDisplay(old(Abs()), toks)
      ensures Valid() && Extends(displays, old(displays))
    {
      DeclareDisplayKeeps(Abs(), toks);
      var name := QuotedAt(toks, 1, 255);
      if name.Some? {
        var x := FindByName(displays, name.value);
        if x == |displays| && |displays| <= 61 {
          displays := displays + [Entry(Stored(name.value), |displays| + 1, DisplayItem(NO_DISPLAY, toks))];
        }
      }
    }

    method NormalLine(line: Line)
      requires Valid() && mode == Normal && line.tokens != []
      modifies this
      ensures Abs() == ProcessNormal(old(Abs()), line)
      ensures Valid()
    {
      var keyword := line.tokens[0];
      if Same(keyword, "KEY") {
        KeyLine(line.tokens);
      } else if Same(keyword, "SUB") {
        SubLine(line.tokens);
      } else if Same(keyword, "STATE") {
        StateLine(line.tokens);
      } else if Same(keyword, "FLAG") {
        FlagLine(line.tokens);
      } else if Same(keyword, "DISPLAY") {
        DisplayLine(line.tokens);
      }
    }

    /** ENDKEY leaves a key whose record is short and counted. */
    method EndKeyLine()
      requires Valid() && mode == InKey
      modifies this`keys, this`mode
      ensures Abs() == EndKey(old(Abs()))
      ensures Valid() && mode == Normal && ShortKey(keys[key].item)
    {
      EndKeyKeeps(Abs());
      var k := keys[key].item;
      KeyIsShort(EndKey(Abs()).keys[key].item);
      keys := keys[key := keys[key].(item := k.(defined := true, length := (k.retstrlen - 2) % 256))];
      mode := Normal;
    }

    method InKeyLine(line: Line)
      requires Valid() && mode == InKey && line.tokens != []
      modifies this
      ensures Abs() == ProcessInKey(old(Abs()), line)
      ensures Valid() && (mode == Normal ==> key < |keys| && ShortKey(keys[key].item))
    {
      var done := ProcessReturncodeLine(line);
      if !done && Same(line.tokens[0], "ENDKEY") {
        EndKeyLine();
      }
    }

    /** ENDSUB leaves the subscript with its length and its count. */
    method EndSubLine()
      requires Valid() && mode == InSub
      modifies this`subs, this`mode
      ensures Abs() == EndSub(old(Abs()))
      ensures Valid() && mode == Normal && WellFormedSub(subs[sub])
    {
      EndSubKeeps(Abs());
      EndSubStores(Abs());
      if sub < |subs| {
        var e := subs[sub];
        var count := if e.id != 0 then e.item.inscount % 256 else e.item.storedCount;
        var b := e.item.(defined := true, length := (e.item.datalen - 2) % 256, storedCount := count);
        subs := subs[sub := e.(item := b)];
        mode := Normal;
      }
    }

    method IfeventLine(toks: seq<string>)
      requires Valid() && mode == InSub
      modifies this`subs, this`mode
      ensures Abs() == BeginIf(old(Abs()), toks)
      ensures Valid()
    {
      BeginIfKeeps(Abs(), toks);
      if |toks| < 2 || EventByName(toks[1]) < 1 || !Word(toks, 2, "THEN") || sub >= |subs| {
        return;
      }
      var b := subs[sub].item;
      var header := IfHeader(EventByName(toks[1]), 0);
      subs := subs[sub := subs[sub].(item := AddInstr(b, header).(ifAt := |b.instrs|, ifinscount := 0))];
      mode := InIf;
    }

    method InSubLine(line: Line)
      requires Valid() && mode == InSub && line.tokens != []
      modifies this
      ensures Abs() == ProcessInSub(old(Abs()), line)
      ensures Valid() && (mode == Normal ==> sub < |subs| && WellFormedSub(subs[sub]))
    {
      var done := ProcessOpcodeLine(line);
      if !done {
        if Same(line.tokens[0], "ENDSUB") {
          EndSubLine();
        } else if Same(line.tokens[0], "IFEVENT") {
          IfeventLine(line.tokens);
        }
      }
    }

    /** ENDIF leaves instructions whose IF blocks can be read back by their counts. */
    method EndIfLine()
      requires Valid() && mode == InIf
      modifies this`subs, this`mode
      ensures Abs() == EndIf(old(Abs()))
      ensures Valid() && mode == InSub && (|subs[sub].item.instrs| < 256 ==> Parses(subs[sub].item.instrs))
    {
      EndIfKeeps(Abs());
      if sub < |subs| {
        var b := subs[sub].item;
        if b.ifAt < |b.instrs| && b.instrs[b.ifAt].IfHeader? {
          var header := IfHeader(b.instrs[b.ifAt].event, b.ifinscount % 256);
          subs := subs[sub := subs[sub].(item := b.(defined := true, instrs := b.instrs[b.ifAt := header]))];
          mode := InSub;
        }
      }
    }

    method GotoLine(toks: seq<string>)
      requires Valid() && mode == InIf
      modifies this`subs
      ensures Abs() == IfGotoLine(old(Abs()), toks)
      ensures Valid()
    {
      IfGotoKeeps(Abs(), toks);
      var name := QuotedAt(toks, 1, 79);
      if name.None? {
        return;
      }
      var at := GetSubByName(name.value);
      if at.None? || sub >= |subs| {
        return;
      }
      var b := subs[sub].item;
      if b.ifAt < |b.instrs| && b.instrs[b.ifAt].IfHeader? {
        var i := IfGoto(b.instrs[b.ifAt].event, subs[at.value].id);
        subs := subs[sub := subs[sub].(item := AddInstr(b, i).(ifinscount := b.ifinscount + 1))];
      }
    }

    method CountLine()
      modifies this`subs
      ensures Abs() == CountInIf(old(Abs()))
    {
      if sub < |subs| {
        var b := subs[sub].item;
        subs := subs[sub := subs[sub].(item := b.(ifinscount := b.ifinscount + 1))];
      }
    }

    method InIfLine(line: Line)
      requires Valid() && mode == InIf && line.tokens != []
      modifies this
      ensures Abs() == ProcessInIf(old(Abs()), line)
      ensures Valid()
    {
      var done := ProcessOpcodeLine(line);
      if done {
        CountLine();
      } else if Same(line.tokens[0], "ENDIF") {
        EndIfLine();
      } else if Same(line.tokens[0], "GOTO") {
        GotoLine(line.tokens);
      }
    }

    method AdsiProcess(line: Line)
      requires Valid()
      modifies this
      ensures Abs() == Process(old(Abs()), line)
      ensures Valid() && AllExtend(Abs(), old(Abs()))
    {
      ProcessExtends(Abs(), line);
      if line.tokens == [] {
        return;
      }
      match mode
      case Normal => NormalLine(line);
      case InKey => InKeyLine(line);
      case InSub => InSubLine(line);
      case InIf => InIfLine(line);
    }

    /** The loop over the lines of the file. */
    method ReadLines(lines: seq<Line>)
      requires Abs() == After([])
      modifies this
      ensures Abs() == After(lines)
      ensures Valid()
    {
      AfterKeeps([]);
      assert lines[..0] == [];
      for x := 0 to |lines|
        invariant Abs() == After(lines[..x]) && Valid()
      {
        assert lines[..x + 1][..x] == lines[..x];
        AdsiProcess(lines[x]);
      }
      assert lines[..|lines|] == lines;
    }

    /** The loops that count the keys and the subscripts without a definition. */
    method Undefined() returns (err: nat)
      ensures err == 0 <==> Resolved(Abs())
    {
      err := 0;
      for x := 0 to |keys|
        invariant err == 0 <==> forall i :: 0 <= i < x ==> keys[i].item.defined
      {
        if !keys[x].item.defined {
          err := err + 1;
        }
      }
      ghost var keyErrors := err;
      for x := 0 to |subs|
        invariant err == 0 <==> keyErrors == 0 && forall i :: 0 <= i < x ==> subs[i].item.defined
      {
        if !subs[x].item.defined {
          err := err + 1;
        }
      }
    }

    /** Reads the file and checks that nothing was left open or undefined. In a script that is
        returned every number that was written denotes a definition, the records of keys and
        displays are short, and each subscript but one with an open IF is well formed. */
    method CompileScript(lines: seq<Line>) returns (ok: bool)
      requires Abs() == After([])
      modifies this
      ensures Abs() == After(lines) && Valid()
      ensures if ok then Compile(lines) == Some(Abs()) else Compile(lines) == None
      ensures ok ==> LinksResolve(Abs()) && RecordsShort(Abs())
      ensures ok ==> forall x :: 0 <= x < |subs| && !(mode == InIf && x == sub) ==> WellFormedSub(subs[x])
    {
      ReadLines(lines);
      if mode == InSub || mode == InKey {
        return false;
      }
      var err := Undefined();
      if err == 0 {
        Promises(lines);
      }
      return err == 0;
    }
  }

  lemma Promises(lines: seq<Line>)
    requires Compile(lines).Some?
    ensures var s := Compile(lines).value;
            && LinksResolve(s) && RecordsShort(s)
            && forall x :: 0 <= x < |s.subs| && !(s.mode == InIf && x == s.sub) ==> WellFormedSub(s.subs[x])
  {
    var s := Compile(lines).value;
    LinksAreSound(lines);
    RecordsAreShort(lines);
    forall x | 0 <= x < |s.subs| && !(s.mode == InIf && x == s.sub) ensures WellFormedSub(s.subs[x]) {
      SubsAreWellFormed(lines, x);
    }
  }
}
