/** What the compiler promises of a script it returns. */
module AdsiResults {
  import opened Basics
  import opened AdsiScript
  import opened AdsiLinks
  import opened AdsiSteps

  /** The subscripts and keys that an instruction names are defined. */
  ghost predicate Resolves(s: Script, i: Instr) {
    match i
    case CallSub(n) => DefinedSub(s, n)
    case OnEvent(_, n, _) => DefinedSub(s, n)
    case IfGoto(_, n) => DefinedSub(s, n)
    case ShowKeys(_, _, ks) => forall k :: k in ks && k.Id? ==> DefinedKey(s, k.id)
    case Plain(_) => true
    case IfHeader(_, _) => true
  }

  ghost predicate DefinedSub(s: Script, n: nat) {
    n < |s.subs| && s.subs[n].id == n && s.subs[n].item.defined
  }

  ghost predicate DefinedKey(s: Script, n: nat) {
    FIRST_KEY <= n < FIRST_KEY + |s.keys| && s.keys[n - FIRST_KEY].id == n && s.keys[n - FIRST_KEY].item.defined
  }

  lemma OkResolves(s: Script, i: Instr)
    requires TablesOk(s) && Resolved(s) && InstrOk(i, |s.keys|, |s.subs|)
    ensures Resolves(s, i)
  {
    match i
    case Plain(_) =>
    case ShowKeys(_, _, _) =>
    case CallSub(_) =>
    case OnEvent(_, _, _) =>
    case IfHeader(_, _) =>
    case IfGoto(_, _) =>
  }

  ghost predicate LinksResolve(s: Script) {
    && (forall x, i :: 0 <= x < |s.keys| && 0 <= i < |s.keys[x].item.codes| ==> Resolves(s, s.keys[x].item.codes[i]))
    && (forall x, i :: 0 <= x < |s.subs| && 0 <= i < |s.subs[x].item.instrs| ==> Resolves(s, s.subs[x].item.instrs[i]))
  }

  /** Link soundness: when a script is returned, every subscript number that a GOTO, an
      ONEVENT or the GOTO of an IF wrote, and every key number of a SHOWKEYS, is the number of
      an entry that is defined. */
  lemma LinksAreSound(lines: seq<Line>)
    requires Compile(lines).Some?
    ensures LinksResolve(Compile(lines).value)
  {
    AfterKeeps(lines);
    var s := Compile(lines).value;
    forall x, i | 0 <= x < |s.keys| && 0 <= i < |s.keys[x].item.codes| ensures Resolves(s, s.keys[x].item.codes[i]) {
      assert InstrsOk(s.keys[x].item.codes, |s.keys|, |s.subs|);
      OkResolves(s, s.keys[x].item.codes[i]);
    }
    forall x, i | 0 <= x < |s.subs| && 0 <= i < |s.subs[x].item.instrs| ensures Resolves(s, s.subs[x].item.instrs[i]) {
      assert InstrsOk(s.subs[x].item.instrs, |s.keys|, |s.subs|);
      OkResolves(s, s.subs[x].item.instrs[i]);
    }
  }

  /** The length and count bytes of a subscript say what was written. */
  predicate LengthStored(e: Entry<Sub>) {
    && e.item.length == (e.item.datalen - 2) % 256
    && (e.id != 0 ==> e.item.storedCount == |e.item.instrs| % 256)
  }

  /** Besides, its IF blocks can be read back by their counts. */
  ghost predicate WellFormedSub(e: Entry<Sub>) {
    && LengthStored(e)
    && e.item.datalen == HeaderLen(e.id) + Sizes(e.item.instrs, 1)
    && (|e.item.instrs| < 256 ==> Parses(e.item.instrs))
  }

  /** A returned script has well-formed subscripts, except the one whose IF the end of the
      file left open: that one is returned without a length and without a count. */
  lemma SubsAreWellFormed(lines: seq<Line>, x: nat)
    requires Compile(lines).Some? && x < |Compile(lines).value.subs|
    ensures var s := Compile(lines).value;
            if s.mode == InIf && x == s.sub
            then OpenIf(s.subs[x].item) && s.subs[x].item.length == s.subs[x].item.storedCount == 0
            else WellFormedSub(s.subs[x])
    ensures var e := Compile(lines).value.subs[x]; e.id == x && e.item.datalen == HeaderLen(x) + Sizes(e.item.instrs, 1)
  {
    AfterKeeps(lines);
    var s := Compile(lines).value;
    assert SubOk(s.subs[x].item, x, PlaceOf(s, x));
  }

  /** ENDSUB stores the length and the count. */
  lemma EndSubStores(s: Script)
    requires Inv(s) && s.mode == InSub
    ensures var s' := EndSub(s); s'.mode == Normal && |s'.subs| == |s.subs| && WellFormedSub(s'.subs[s.sub])
  {
    EndSubKeeps(s);
    var s' := EndSub(s);
    assert SubOk(s'.subs[s.sub].item, s.sub, Closed);
  }

  /** A length and a count that happen to be 0 modulo 256. */
  predicate Vanishes(e: Entry<Sub>) {
    (e.item.datalen - 2) % 256 == 0 && (e.id != 0 ==> |e.item.instrs| % 256 == 0)
  }

  /** The subscripts of a returned script have their lengths and counts if and only if the file
      does not end inside of an IF, or what was not stored there would have been 0. */
  lemma LengthsAreStored(lines: seq<Line>)
    requires Compile(lines).Some?
    ensures var s := Compile(lines).value;
            && (s.mode == InIf ==> s.sub < |s.subs|)
            && ((forall x :: 0 <= x < |s.subs| ==> LengthStored(s.subs[x]))
                <==> After(lines).mode != InIf || Vanishes(s.subs[s.sub]))
  {
    var s := Compile(lines).value;
    AfterKeeps(lines);
    forall x | 0 <= x < |s.subs|
      ensures LengthStored(s.subs[x]) <==> !(s.mode == InIf && x == s.sub) || Vanishes(s.subs[x])
    {
      SubsAreWellFormed(lines, x);
    }
  }

  /** A record of a soft key: 5 bytes around the names, the names and the codes. */
  predicate ShortKey(k: Key) {
    && 5 <= k.retstrlen <= 50 && k.length == k.retstrlen - 2
    && k.retstrlen == |k.fullName| + |k.shortName| + 5 + Sizes(k.codes, 0)
  }

  predicate ShortDisplay(d: Display) {
    d.datalen <= 46 && (d.header ==> d.length == d.datalen - 2)
  }

  predicate RecordsShort(s: Script) {
    && (forall x :: 0 <= x < |s.keys| ==> ShortKey(s.keys[x].item))
    && (forall x :: 0 <= x < |s.displays| ==> ShortDisplay(s.displays[x].item))
  }

  lemma KeyIsShort(k: Key)
    requires KeyOk(k) && k.defined
    ensures ShortKey(k)
  {
  }

  /** The records of soft keys and displays are short, and their length bytes are right. */
  lemma RecordsAreShort(lines: seq<Line>)
    requires Compile(lines).Some?
    ensures RecordsShort(Compile(lines).value)
  {
    AfterKeeps(lines);
    var s := Compile(lines).value;
    forall x | 0 <= x < |s.keys| ensures ShortKey(s.keys[x].item) {
      KeyIsShort(s.keys[x].item);
    }
    forall x | 0 <= x < |s.displays| ensures ShortDisplay(s.displays[x].item) {
      assert DisplayOk(s.displays[x].item);
    }
  }

  // ---------- a file that ends inside of an IF ----------

  lemma {:induction false} NotACommand(cmds: seq<Command>, name: string)
    requires forall i :: 0 <= i < |cmds| ==> !Same(cmds[i].name, name)
    ensures CommandByName(cmds, name) == None
  {
    if cmds != [] {
      NotACommand(cmds[1..], name);
    }
  }

  lemma IfeventIsNoCommand()
    ensures CommandByName(SUB_COMMANDS, "IFEVENT") == None
  {
    forall i | 0 <= i < |SUB_COMMANDS| ensures !Same(SUB_COMMANDS[i].name, "IFEVENT") {
      var n := SUB_COMMANDS[i].name;
      assert n != [] && n[0] != 'I' && 'A' <= n[0] <= 'Z';
      assert "IFEVENT"[0] == 'I';
    }
    NotACommand(SUB_COMMANDS, "IFEVENT");
  }

  lemma EndifIsNoCommand()
    ensures CommandByName(SUB_COMMANDS, "ENDIF") == None
  {
    forall i | 0 <= i < |SUB_COMMANDS| ensures !Same(SUB_COMMANDS[i].name, "ENDIF") {
      var n := SUB_COMMANDS[i].name;
      assert |n| != 5 || (n[0] != 'E' && 'A' <= n[0] <= 'Z');
      assert "ENDIF"[0] == 'E' && |"ENDIF"| == 5;
    }
    NotACommand(SUB_COMMANDS, "ENDIF");
  }

  /** A line that opens an IF, and one that closes it. */
  predicate IsIf(line: Line) {
    && |line.tokens| >= 3
    && CommandByName(SUB_COMMANDS, line.tokens[0]) == None && !Same(line.tokens[0], "ENDSUB")
    && Same(line.tokens[0], "IFEVENT") && EventByName(line.tokens[1]) >= 1 && Same(line.tokens[2], "THEN")
  }

  predicate IsEndIf(line: Line) {
    && line.tokens != []
    && CommandByName(SUB_COMMANDS, line.tokens[0]) == None && Same(line.tokens[0], "ENDIF")
  }

  /** The record of the subscript at hand. */
  function Current(s: Script): Sub
    requires s.sub < |s.subs|
  {
    s.subs[s.sub].item
  }

  lemma IfBegins(s: Script, line: Line)
    requires Inv(s) && s.mode == InSub && IsIf(line)
    ensures var s' := Process(s, line); var e := EventByName(line.tokens[1]);
            var b := AddInstr(Current(s), IfHeader(e, 0)).(ifAt := |Current(s).instrs|, ifinscount := 0);
            s' == SetSub(s, b).(mode := InIf)
  {
    assert ProcessOpcode(s, line) == Processed(s, false);
    assert ProcessInSub(s, line) == BeginIf(s, line.tokens);
  }

  lemma IfEnds(s: Script, line: Line)
    requires Inv(s) && s.mode == InIf && IsEndIf(line)
    ensures Process(s, line) == EndIf(s)
  {
    assert ProcessOpcode(s, line) == Processed(s, false);
    assert ProcessInIf(s, line) == EndIf(s);
  }

  lemma EndIfDefines(s: Script)
    requires Inv(s) && s.mode == InIf
    ensures var s' := EndIf(s);
            && s'.mode == InSub && s'.sub == s.sub < |s'.subs|
            && Current(s').defined && Current(s').datalen == Current(s).datalen
            && OthersAre(s', s)
  {
    assert SubOk(Current(s), s.sub, InsideIf);
  }

  /** The keys and all subscripts but the one at hand are the same. */
  predicate OthersAre(s': Script, s: Script) {
    && s'.keys == s.keys && |s'.subs| == |s.subs|
    && forall i :: 0 <= i < |s.subs| && i != s.sub ==> s'.subs[i] == s.subs[i]
  }

  lemma AfterPush(lines: seq<Line>, line: Line)
    ensures After(lines + [line]) == Process(After(lines), line)
  {
    assert (lines + [line])[..|lines|] == lines;
  }

  lemma IfOpens(s: Script, line: Line, s': Script)
    requires Inv(s) && s.mode == InSub && IsIf(line) && s' == Process(s, line)
    ensures s'.mode == InIf && s'.sub == s.sub < |s'.subs| && OthersAre(s', s)
    ensures Current(s').datalen == Current(s).datalen + 4 && Current(s').defined == Current(s).defined
  {
    IfBegins(s, line);
  }

  lemma IfCloses(s: Script, line: Line, s': Script)
    requires Inv(s) && s.mode == InIf && IsEndIf(line) && s' == Process(s, line)
    ensures s'.mode == InSub && s'.sub == s.sub < |s'.subs| && OthersAre(s', s)
    ensures Current(s').datalen == Current(s).datalen && Current(s').defined
  {
    IfEnds(s, line);
    EndIfDefines(s);
  }

  /** A file that ends in a subscript with an IF that was closed and another one that was not
      is compiled, when everything else is defined: the ENDIF already counted as the
      definition.  The subscript has grown by the two headers and has no length. */
  lemma UnclosedIfIsReturned(lines: seq<Line>, open1: Line, close: Line, open2: Line)
    requires IsIf(open1) && IsEndIf(close) && IsIf(open2)
    requires var s := After(lines);
             && s.mode == InSub
             && (forall i :: 0 <= i < |s.keys| ==> s.keys[i].item.defined)
             && (forall i :: 0 <= i < |s.subs| && i != s.sub ==> s.subs[i].item.defined)
    ensures var s, r := After(lines), Compile(lines + [open1] + [close] + [open2]);
            && r.Some? && r.value.mode == InIf && r.value.sub == s.sub < |s.subs| && s.sub < |r.value.subs|
            && Current(r.value).datalen == Current(s).datalen + 8 && Current(r.value).length == 0
            && |r.value.subs| == |s.subs|
  {
    var s := After(lines);
    AfterKeeps(lines);
    var s1 := Process(s, open1);
    AfterPush(lines, open1);
    IfOpens(s, open1, s1);
    AfterKeeps(lines + [open1]);
    var s2 := Process(s1, close);
    AfterPush(lines + [open1], close);
    IfCloses(s1, close, s2);
    AfterKeeps(lines + [open1] + [close]);
    AfterPush(lines + [open1] + [close], open2);
    IfOpens(s2, open2, Process(s2, open2));
    StillResolved(s, s1, s2, Process(s2, open2));
    SubsAreWellFormed(lines + [open1] + [close] + [open2], s.sub);
  }

  lemma StillResolved(s: Script, s1: Script, s2: Script, s3: Script)
    requires s.sub == s1.sub == s2.sub == s3.sub < |s3.subs| && Current(s3).defined
    requires OthersAre(s1, s) && OthersAre(s2, s1) && OthersAre(s3, s2)
    requires forall i :: 0 <= i < |s.keys| ==> s.keys[i].item.defined
    requires forall i :: 0 <= i < |s.subs| && i != s.sub ==> s.subs[i].item.defined
    ensures Resolved(s3)
  {
    forall i | 0 <= i < |s3.subs| ensures s3.subs[i].item.defined {
      assert i != s.sub ==> s3.subs[i] == s2.subs[i] == s1.subs[i] == s.subs[i];
    }
  }

  // ---------- such a file ----------

  /** The line "SUB main IS". */
  predicate IsSubMain(line: Line) {
    && |line.tokens| >= 3
    && Same(line.tokens[0], "SUB") && !Same(line.tokens[0], "KEY")
    && Quoted(line.tokens[1], 255) == Some("main") && Same(line.tokens[2], "IS")
  }

  const MAIN_ONLY: seq<Entry<Sub>> := [Entry("main", 0, NO_SUB)]

  lemma MainIsNamed()
    ensures After([]) == EMPTY.(subs := MAIN_ONLY) && GetSub(After([]), "main") == (After([]), Some(0))
  {
    assert Find(MAIN_ONLY, "main") == 0;
  }

  /** After it the main subscript is open and has no length yet. */
  lemma MainIsOpen(line: Line)
    requires IsSubMain(line)
    ensures After([line]) == EMPTY.(mode := InSub, subs := [Entry("main", 0, NO_SUB.(datalen := 3))])
  {
    var s := After([]);
    MainIsNamed();
    assert [] + [line] == [line];
    AfterPush([], line);
    assert Process(s, line) == BeginSub(s, line.tokens) == OpenSub(s, 0, line.tokens);
  }

  /** A file of four lines that compiles to a main subscript of 11 bytes without a length. */
  lemma MainWithoutLength(main: Line, open1: Line, close: Line, open2: Line)
    requires IsSubMain(main) && IsIf(open1) && IsEndIf(close) && IsIf(open2)
    ensures var r := Compile([main] + [open1] + [close] + [open2]);
            && r.Some? && |r.value.subs| == 1
            && r.value.subs[0].item.datalen == 11 && r.value.subs[0].item.length == 0
            && !LengthStored(r.value.subs[0]) && !WellFormedSub(r.value.subs[0])
  {
    MainIsOpen(main);
    UnclosedIfIsReturned([main], open1, close, open2);
  }

  lemma SubMainExists()
    ensures IsSubMain(Line(["SUB", "\"main\"", "IS"], []))
  {
    assert "\"main\""[1..][..4] == "main";
    assert "SUB"[0] == 'S' && "KEY"[0] == 'K';
  }

  lemma CalleridIsKnown()
    ensures EventByName("CALLERID") == 1
  {
    assert EVENTS[0] == "CALLERID";
  }

  lemma SuchLinesExist()
    ensures IsSubMain(Line(["SUB", "\"main\"", "IS"], []))
    ensures IsIf(Line(["IFEVENT", "CALLERID", "THEN"], [])) && IsEndIf(Line(["ENDIF"], []))
  {
    SubMainExists();
    IfeventIsNoCommand();
    EndifIsNoCommand();
    CalleridIsKnown();
    assert |"IFEVENT"| != |"ENDSUB"|;
  }
}
