/**
 The compiler of ADSI scripts: symbol tables that grow as names are used, records for soft
 keys, subscripts and displays that are written command by command under a byte budget, and
 the checks at the end of the file.
 A line is the list of its tokens.  What a command with arguments of no concern to the tables
 writes is given with the line.
 */
module AdsiScript {
  import opened Basics

  // ---------- names and tables ----------

  function Lower(c: char): char {
    if 'A' <= c <= 'Z' then c + 'a' - 'A' else c
  }

  /** Equality that ignores case. */
  predicate Same(a: string, b: string) {
    |a| == |b| && forall i :: 0 <= i < |a| ==> Lower(a[i]) == Lower(b[i])
  }

  const NAME_LEN := 39

  /** What the 40 bytes of a name field keep. */
  function Stored(name: string): string {
    if |name| > NAME_LEN then name[..NAME_LEN] else name
  }

  datatype Entry<T> = Entry(name: string, id: nat, item: T)

  /** The position of the first entry of that name, or the length of the table. */
  function Find<T>(t: seq<Entry<T>>, name: string): (i: nat)
    ensures i <= |t|
    ensures i < |t| ==> Same(t[i].name, name)
    ensures forall j :: 0 <= j < i ==> !Same(t[j].name, name)
  {
    if t == [] then 0
    else if Same(t[0].name, name) then 0
    else
      var k := Find(t[1..], name);
      assert forall j :: 0 < j < 1 + k ==> t[j] == t[1..][j - 1];
      1 + k
  }

  /** A table and the position of the name in it, if there is one. */
  datatype Found<T> = Found(t: seq<Entry<T>>, at: Option<nat>)

  /** Looks a name up and adds it when it is new and there is space. */
  function Get<T>(t: seq<Entry<T>>, name: string, max: nat, first: nat, item: T): Found<T> {
    var i := Find(t, name);
    if i < |t| then Found(t, Some(i))
    else if |t| >= max then Found(t, None)
    else Found(t + [Entry(Stored(name), |t| + first, item)], Some(|t|))
  }

  const MAX_KEYS := 62
  const FIRST_KEY := 2
  const MAX_SUBS := 128
  const MAX_STATES := 254
  const MAX_DISPLAYS := 62
  const MAX_FLAGS := 7

  // ---------- records ----------

  /** A key number in a SHOWKEYS; an invalid token leaves its byte unset. */
  datatype KeyRef = Id(id: nat) | Unset

  datatype Instr =
    | Plain(bytes: seq<Byte>)
    | ShowKeys(op: Byte, flag: nat, keys: seq<KeyRef>)
    | CallSub(sub: nat)
    | OnEvent(event: nat, sub: nat, states: seq<nat>)
    | IfHeader(event: nat, count: nat)
    | IfGoto(event: nat, sub: nat)

  function Size(i: Instr): nat {
    match i
    case Plain(bytes) => |bytes|
    case ShowKeys(_, _, keys) => 2 + |keys|
    case CallSub(_) => 2
    case OnEvent(_, _, states) => 3 + |states|
    case IfHeader(_, _) => 3
    case IfGoto(_, _) => 3
  }

  datatype Key = Key(
    defined: bool, fullName: string, shortName: string, codes: seq<Instr>,
    initlen: nat, retstrlen: nat, length: Byte)

  const NO_KEY := Key(false, "", "", [], 0, 0, 0)

  datatype Sub = Sub(
    defined: bool, instrs: seq<Instr>, datalen: nat, inscount: nat,
    ifAt: nat, ifinscount: nat, length: Byte, storedCount: Byte)

  const NO_SUB := Sub(false, [], 0, 0, 0, 0, 0, 0)

  /** `header` tells whether the five bytes before the text were written. */
  datatype Display = Display(
    column1: string, column2: string, datalen: nat, header: bool, length: Byte, justify: nat, wrap: bool)

  const NO_DISPLAY := Display("", "", 0, false, 0, 0, false)

  datatype Mode = Normal | InKey | InSub | InIf

  datatype Script = Script(
    mode: Mode,
    keys: seq<Entry<Key>>,
    subs: seq<Entry<Sub>>,
    states: seq<Entry<()>>,
    displays: seq<Entry<Display>>,
    flags: seq<Entry<()>>,
    key: nat,
    sub: nat)

  // ---------- tokens ----------

  datatype Line = Line(tokens: seq<string>, plain: seq<Byte>)

  /** A token that has to be a quoted string, of which at most max characters are taken. */
  function Quoted(tok: string, max: nat): Option<string> {
    if |tok| > 1 && tok[0] == '"' then
      var n := |tok| - 2;
      Some(tok[1..][..if max > n then n else max])
    else None
  }

  function QuotedAt(toks: seq<string>, i: nat, max: nat): Option<string> {
    if i < |toks| then Quoted(toks[i], max) else None
  }

  predicate Word(toks: seq<string>, i: nat, word: string) {
    i < |toks| && Same(toks[i], word)
  }

  const EVENTS: seq<string> := [
    "CALLERID", "VMWI", "NEARANSWER", "FARANSWER", "ENDOFRING", "IDLE", "OFFHOOK", "CIDCW", "BUSY", "FARRING",
    "DIALTONE", "RECALL", "MESSAGE", "REORDER", "DISTINCTIVERING", "RING", "REMINDERRING", "SPECIALRING",
    "CODEDRING", "TIMER", "INUSE", "EVENT22", "EVENT23", "CPEID"]

  const JUSTIFY: seq<string> := ["CENTER", "RIGHT", "LEFT", "INDENT"]

  /** The position of a name in a list, or its length. */
  function Position(names: seq<string>, name: string): (i: nat)
    ensures i <= |names|
  {
    if names == [] then 0 else if Same(names[0], name) then 0 else 1 + Position(names[1..], name)
  }

  /** The number of an event, from 1; 0 for an unknown name. */
  function EventByName(name: string): (e: nat)
    ensures e <= |EVENTS|
  {
    var i := Position(EVENTS, name);
    if i < |EVENTS| then i + 1 else 0
  }

  // ---------- arguments that name table entries ----------

  /** A script and what was written. */
  datatype Written = Written(s: Script, instr: Instr)

  function GetSub(s: Script, name: string): (Script, Option<nat>) {
    var f := Get(s.subs, name, MAX_SUBS, 0, NO_SUB);
    (s.(subs := f.t), f.at)
  }

  function GetKey(s: Script, name: string): (Script, Option<nat>) {
    var f := Get(s.keys, name, MAX_KEYS, FIRST_KEY, NO_KEY);
    (s.(keys := f.t), f.at)
  }

  const NOTHING := Plain([])

  /** GOTO of a soft key. */
  function Subscript(s: Script, args: seq<string>): Written {
    match QuotedAt(args, 0, 79)
    case None => Written(s, NOTHING)
    case Some(name) =>
      var (s', at) := GetSub(s, name);
      Written(s', if at.Some? && at.value < |s'.subs| then CallSub(s'.subs[at.value].id) else NOTHING)
  }

  /** The flag of a trailing UNLESS clause, or 0. */
  function UnlessFlag(flags: seq<Entry<()>>, args: seq<string>): nat {
    match QuotedAt(args, 0, 79)
    case None => 0
    case Some(name) =>
      var i := Find(flags, name);
      if i < |flags| then flags[i].id else 0
  }

  /** The arguments of SHOWKEYS from the current token on, of which x keys were read. */
  function ShowKeysFrom(s: Script, op: Byte, args: seq<string>, keys: seq<KeyRef>): Written
    decreases |args|
  {
    if args == [] then Written(s, ShowKeys(op, 0, keys))
    else if Same(args[0], "UNLESS") then Written(s, ShowKeys(op, UnlessFlag(s.flags, args[1..]), keys))
    else if |keys| > 5 then Written(s, ShowKeys(op, 0, keys))
    else match Quoted(args[0], 79)
         case None => ShowKeysFrom(s, op, args[1..], keys + [Unset])
         case Some(name) =>
           var (s', at) := GetKey(s, name);
           if at.Some? && at.value < |s'.keys|
           then ShowKeysFrom(s', op, args[1..], keys + [Id(s'.keys[at.value].id)])
           else Written(s', ShowKeys(op, 0, keys))
  }

  /** The states of an IN clause: how many there are and the tokens after the word that ends
      the clause. */
  datatype States = Bad | Good(count: nat, rest: seq<string>)

  function StatesFrom(states: seq<Entry<()>>, args: seq<string>, count: nat): States
    decreases |args|
  {
    if args == [] then Bad
    else if Same(args[0], if count == 0 then "IN" else "OR") then
      if count > 7 || |args| < 2 then Bad
      else match Quoted(args[1], 80)
           case None => Bad
           case Some(name) =>
             if Find(states, name) == |states| then Bad
             else if |args| == 2 then Good(count + 1, [])
             else StatesFrom(states, args[2..], count + 1)
    else Good(count, args[1..])
  }

  function Zeros(n: nat): seq<nat> {
    seq(n, i => 0)
  }

  /** ONEVENT of a subscript.  The number written for a state is the truth value of its
      lookup having failed. */
  function OnEventArgs(s: Script, args: seq<string>): Written {
    if args == [] || EventByName(args[0]) < 1 then Written(s, NOTHING)
    else match StatesFrom(s.states, args[1..], 0)
         case Bad => Written(s, NOTHING)
         case Good(count, rest) =>
           match QuotedAt(rest, 0, 79)
           case None => Written(s, NOTHING)
           case Some(name) =>
             var (s', at) := GetSub(s, name);
             Written(s', if at.Some? && at.value < |s'.subs|
                         then OnEvent(EventByName(args[0]), s'.subs[at.value].id, Zeros(count)) else NOTHING)
  }

  // ---------- commands ----------

  datatype Args = NoArgs | KeyArgs | SubArgs | EventArgs | PlainArgs

  datatype Command = Command(name: string, id: Byte, args: Args)

  const KEY_COMMANDS: seq<Command> := [
    Command("SENDDTMF", 0, PlainArgs), Command("ONHOOK", 0x81, NoArgs), Command("OFFHOOK", 0x82, NoArgs),
    Command("FLASH", 0x83, NoArgs), Command("WAITDIALTONE", 0x84, NoArgs), Command("BLANK", 0x86, NoArgs),
    Command("SENDCHARS", 0x87, NoArgs), Command("CLEARCHARS", 0x88, NoArgs), Command("BACKSPACE", 0x89, NoArgs),
    Command("GOTOLINE", 0x8b, PlainArgs), Command("GOTOLINEREL", 0x8c, PlainArgs), Command("PAGEUP", 0x8d, NoArgs),
    Command("PAGEDOWN", 0x8e, NoArgs), Command("DELAY", 0x90, PlainArgs), Command("DIALPULSEONE", 0x91, NoArgs),
    Command("DATAMODE", 0x92, NoArgs), Command("VOICEMODE", 0x93, NoArgs), Command("CLEARCB1", 0x95, PlainArgs),
    Command("DIGITCOLLECT", 0x96, PlainArgs), Command("DIGITDIRECT", 0x96, PlainArgs), Command("CLEAR", 0x97, NoArgs),
    Command("SHOWDISPLAY", 0x98, PlainArgs), Command("CLEARDISPLAY", 0x98, PlainArgs),
    Command("SHOWKEYS", 0x99, KeyArgs), Command("SETSTATE", 0x9a, PlainArgs),
    Command("TIMERSTART", 0x9b, PlainArgs), Command("TIMERCLEAR", 0x9b, PlainArgs),
    Command("SETFLAG", 0x9c, PlainArgs), Command("CLEARFLAG", 0x9c, PlainArgs), Command("GOTO", 0x9d, SubArgs),
    Command("EVENT22", 0x9e, NoArgs), Command("EVENT23", 0x9f, NoArgs), Command("EXIT", 0xa0, NoArgs)]

  const SUB_COMMANDS: seq<Command> := [
    Command("SHOWKEYS", 2, KeyArgs), Command("SHOWDISPLAY", 3, PlainArgs), Command("CLEARDISPLAY", 3, PlainArgs),
    Command("CLEAR", 5, NoArgs), Command("SETSTATE", 6, PlainArgs), Command("TIMERSTART", 7, PlainArgs),
    Command("TIMERCLEAR", 7, PlainArgs), Command("ONEVENT", 8, EventArgs), Command("SETFLAG", 10, PlainArgs),
    Command("CLEARFLAG", 10, PlainArgs), Command("DELAY", 11, PlainArgs), Command("EXIT", 12, NoArgs)]

  function CommandByName(cmds: seq<Command>, name: string): Option<Command> {
    if cmds == [] then None
    else if Same(cmds[0].name, name) then Some(cmds[0])
    else CommandByName(cmds[1..], name)
  }

  /** What a command writes, and the tables after its lookups. */
  function Write(s: Script, c: Command, line: Line): Written
    requires line.tokens != []
  {
    match c.args
    case NoArgs => Written(s, Plain([c.id]))
    case PlainArgs => Written(s, Plain(line.plain))
    case KeyArgs => ShowKeysFrom(s, c.id, line.tokens[1..], [])
    case SubArgs => Subscript(s, line.tokens[1..])
    case EventArgs => OnEventArgs(s, line.tokens[1..])
  }

  const MAX_RET_CODE := 20
  const MAX_SUB_LEN := 255
  const MAX_MAIN_LEN := 1600

  function SetKey(s: Script, k: Key): Script {
    if s.key < |s.keys| then s.(keys := s.keys[s.key := s.keys[s.key].(item := k)]) else s
  }

  function SetSub(s: Script, b: Sub): Script {
    if s.sub < |s.subs| then s.(subs := s.subs[s.sub := s.subs[s.sub].(item := b)]) else s
  }

  /** A script and whether the line was a command. */
  datatype Processed = Processed(s: Script, done: bool)

  /** A code goes to the soft key at hand, or is dropped when the key has no space for it. */
  function StoreCode(s: Script, i: Instr): Script {
    if s.key < |s.keys| then
      var k := s.keys[s.key].item;
      if k.retstrlen + Size(i) - k.initlen <= MAX_RET_CODE
      then SetKey(s, k.(codes := k.codes + [i], retstrlen := k.retstrlen + Size(i)))
      else s
    else s
  }

  function ProcessReturncode(s: Script, line: Line): Processed
    requires line.tokens != []
  {
    match CommandByName(KEY_COMMANDS, line.tokens[0])
    case None => Processed(s, false)
    case Some(c) =>
      var w := Write(s, c, line);
      Processed(StoreCode(w.s, w.instr), true)
  }

  /** The instruction goes to the subscript with a separator byte behind it. */
  function AddInstr(b: Sub, i: Instr): Sub {
    b.(instrs := b.instrs + [i], datalen := b.datalen + Size(i) + 1, inscount := b.inscount + 1)
  }

  /** An instruction goes to the subscript at hand; without space the line counts as no
      command. */
  function StoreInstr(s: Script, i: Instr): Processed {
    if s.sub < |s.subs| then
      var e := s.subs[s.sub];
      var max := if e.id != 0 then MAX_SUB_LEN else MAX_MAIN_LEN;
      if e.item.datalen + Size(i) + 1 <= max then Processed(SetSub(s, AddInstr(e.item, i)), true)
      else Processed(s, false)
    else Processed(s, false)
  }

  function ProcessOpcode(s: Script, line: Line): Processed
    requires line.tokens != []
  {
    match CommandByName(SUB_COMMANDS, line.tokens[0])
    case None => Processed(s, false)
    case Some(c) =>
      var w := Write(s, c, line);
      StoreInstr(w.s, w.instr)
  }

  // ---------- lines outside of definitions ----------

  function Truncated(s: string, n: nat): string {
    if |s| > n then s[..n] else s
  }

  /** The short and the full name of a key definition, from the word IS on. */
  function KeyNames(toks: seq<string>): Option<(string, string)> {
    if !Word(toks, 2, "IS") then None
    else match QuotedAt(toks, 3, 79)
         case None => None
         case Some(short) =>
           if |toks| == 4 then Some((short, short))
           else if !Word(toks, 4, "OR") then None
           else match QuotedAt(toks, 5, 79)
                case None => None
                case Some(full) => Some((short, full))
  }

  function KeyHeader(k: Key, short: string, full: string): Key {
    var f, h := Truncated(full, 18), Truncated(short, 7);
    k.(fullName := f, shortName := h, codes := [], retstrlen := |f| + |h| + 5, initlen := |f| + |h| + 5)
  }

  function OpenKey(s: Script, at: nat, toks: seq<string>): Script {
    var s' := s.(key := at);
    if at >= |s.keys| || s.keys[at].item.defined then s'
    else match KeyNames(toks)
         case None => s'
         case Some(names) => SetKey(s', KeyHeader(s.keys[at].item, names.0, names.1)).(mode := InKey)
  }

  function BeginKey(s: Script, toks: seq<string>): Script {
    match QuotedAt(toks, 1, 255)
    case None => s
    case Some(name) =>
      var (s', at) := GetKey(s, name);
      if at.None? then s' else OpenKey(s', at.value, toks)
  }

  function OpenSub(s: Script, at: nat, toks: seq<string>): Script {
    var s' := s.(sub := at);
    if at >= |s.subs| || s.subs[at].item.defined then s'
    else
      var e := s.subs[at];
      var r := SetSub(s', e.item.(instrs := [], datalen := if e.id != 0 then 7 else 3));
      if Word(toks, 2, "IS") then r.(mode := InSub) else r
  }

  function BeginSub(s: Script, toks: seq<string>): Script {
    match QuotedAt(toks, 1, 255)
    case None => s
    case Some(name) =>
      var (s', at) := GetSub(s, name);
      if at.None? then s' else OpenSub(s', at.value, toks)
  }

  function DeclareState(s: Script, toks: seq<string>): Script {
    match QuotedAt(toks, 1, 255)
    case None => s
    case Some(name) => s.(states := Get(s.states, name, MAX_STATES, 1, ()).t)
  }

  function DeclareFlag(s: Script, toks: seq<string>): Script {
    match QuotedAt(toks, 1, 255)
    case None => s
    case Some(name) => s.(flags := Get(s.flags, name, MAX_FLAGS, 1, ()).t)
  }

  /** The qualifiers after the texts of a display. */
  datatype Qualifiers = Wrong | Right(justify: nat, wrap: bool)

  function QualifiersFrom(toks: seq<string>, justify: nat, wrap: bool): Qualifiers
    decreases |toks|
  {
    if toks == [] then Right(justify, wrap)
    else if Same(toks[0], "JUSTIFY") then
      if |toks| == 1 then Right(justify, wrap)
      else if Position(JUSTIFY, toks[1]) == |JUSTIFY| then Wrong
      else QualifiersFrom(toks[2..], Position(JUSTIFY, toks[1]), wrap)
    else if Same(toks[0], "WRAP") then QualifiersFrom(toks[1..], justify, true)
    else Wrong
  }

  /** The texts of a display; the first column is followed by a separator. */
  function DisplayTexts(d: Display, column1: string, column2: Option<string>): Display {
    var c1 := Truncated(column1, 20);
    var c2 := if column2.Some? then Truncated(column2.value, 20) else "";
    d.(column1 := c1, column2 := c2, datalen := |c1| + |c2| + 6)
  }

  function DisplayItem(d: Display, toks: seq<string>): Display {
    if !Word(toks, 2, "IS") then d
    else match QuotedAt(toks, 3, 79)
         case None => d
         case Some(c1) =>
           var c2 := QuotedAt(toks, 4, 79);
           var d' := DisplayTexts(d, c1, c2);
           match QualifiersFrom(if |toks| <= 4 then [] else if c2.Some? then toks[5..] else toks[4..], 0, false)
           case Wrong => d'
           case Right(j, w) => d'.(header := true, length := (d'.datalen - 2) % 256, justify := j, wrap := w)
  }

  function DeclareDisplay(s: Script, toks: seq<string>): Script {
    match QuotedAt(toks, 1, 255)
    case None => s
    case Some(name) =>
      var f := Get(s.displays, name, MAX_DISPLAYS, 1, NO_DISPLAY);
      if |f.t| == |s.displays| then s
      else s.(displays := s.displays + [f.t[|s.displays|].(item := DisplayItem(NO_DISPLAY, toks))])
  }

  // ---------- lines ----------

  function ProcessNormal(s: Script, line: Line): Script
    requires line.tokens != []
  {
    var keyword := line.tokens[0];
    if Same(keyword, "KEY") then BeginKey(s, line.tokens)
    else if Same(keyword, "SUB") then BeginSub(s, line.tokens)
    else if Same(keyword, "STATE") then DeclareState(s, line.tokens)
    else if Same(keyword, "FLAG") then DeclareFlag(s, line.tokens)
    else if Same(keyword, "DISPLAY") then DeclareDisplay(s, line.tokens)
    else s
  }

  function EndKey(s: Script): Script {
    if s.key < |s.keys| then
      var k := s.keys[s.key].item;
      SetKey(s, k.(defined := true, length := (k.retstrlen - 2) % 256)).(mode := Normal)
    else s
  }

  function ProcessInKey(s: Script, line: Line): Script
    requires line.tokens != []
  {
    var p := ProcessReturncode(s, line);
    if p.done then p.s else if Same(line.tokens[0], "ENDKEY") then EndKey(p.s) else p.s
  }

  function EndSub(s: Script): Script {
    if s.sub < |s.subs| then
      var e := s.subs[s.sub];
      var count := if e.id != 0 then e.item.inscount % 256 else e.item.storedCount;
      SetSub(s, e.item.(defined := true, length := (e.item.datalen - 2) % 256, storedCount := count)).(mode := Normal)
    else s
  }

  /** IFEVENT: the header is written without the count and without a check for space. */
  function BeginIf(s: Script, toks: seq<string>): Script {
    if |toks| < 2 || EventByName(toks[1]) < 1 || !Word(toks, 2, "THEN") || s.sub >= |s.subs| then s
    else
      var b := s.subs[s.sub].item;
      SetSub(s, AddInstr(b, IfHeader(EventByName(toks[1]), 0)).(ifAt := |b.instrs|, ifinscount := 0)).(mode := InIf)
  }

  function ProcessInSub(s: Script, line: Line): Script
    requires line.tokens != []
  {
    var p := ProcessOpcode(s, line);
    if p.done then p.s
    else if Same(line.tokens[0], "ENDSUB") then EndSub(p.s)
    else if Same(line.tokens[0], "IFEVENT") then BeginIf(p.s, line.tokens)
    else p.s
  }

  /** ENDIF: the subscript already counts as defined. */
  function EndIf(s: Script): Script {
    if s.sub < |s.subs| && s.subs[s.sub].item.ifAt < |s.subs[s.sub].item.instrs| then
      var b := s.subs[s.sub].item;
      match b.instrs[b.ifAt]
      case IfHeader(event, _) =>
        var closed := b.instrs[b.ifAt := IfHeader(event, b.ifinscount % 256)];
        SetSub(s, b.(defined := true, instrs := closed)).(mode := InSub)
      case _ => s
    else s
  }

  /** GOTO inside of an IF: written without a check for space. */
  function StoreIfGoto(s: Script, at: nat): Script {
    if at < |s.subs| && s.sub < |s.subs| then
      var b := s.subs[s.sub].item;
      if b.ifAt < |b.instrs| && b.instrs[b.ifAt].IfHeader? then
        SetSub(s, AddInstr(b, IfGoto(b.instrs[b.ifAt].event, s.subs[at].id)).(ifinscount := b.ifinscount + 1))
      else s
    else s
  }

  function IfGotoLine(s: Script, toks: seq<string>): Script {
    match QuotedAt(toks, 1, 79)
    case None => s
    case Some(name) =>
      var (s', at) := GetSub(s, name);
      if at.None? then s' else StoreIfGoto(s', at.value)
  }

  /** One more instruction inside of the open IF. */
  function CountInIf(s: Script): Script {
    if s.sub < |s.subs| then
      var b := s.subs[s.sub].item;
      SetSub(s, b.(ifinscount := b.ifinscount + 1))
    else s
  }

  function ProcessInIf(s: Script, line: Line): Script
    requires line.tokens != []
  {
    var p := ProcessOpcode(s, line);
    if p.done then CountInIf(p.s)
    else if Same(line.tokens[0], "ENDIF") then EndIf(p.s)
    else if Same(line.tokens[0], "GOTO") then IfGotoLine(p.s, line.tokens)
    else p.s
  }

  function Process(s: Script, line: Line): Script {
    if line.tokens == [] then s
    else match s.mode
         case Normal => ProcessNormal(s, line)
         case InKey => ProcessInKey(s, line)
         case InSub => ProcessInSub(s, line)
         case InIf => ProcessInIf(s, line)
  }

  const EMPTY := Script(Normal, [], [], [], [], [], 0, 0)

  /** The script after some lines; subscript 0 is called main. */
  function After(lines: seq<Line>): Script {
    if lines == [] then GetSub(EMPTY, "main").0
    else Process(After(lines[..|lines| - 1]), lines[|lines| - 1])
  }

  /** Every key and subscript that was named is defined. */
  predicate Resolved(s: Script) {
    && (forall i :: 0 <= i < |s.keys| ==> s.keys[i].item.defined)
    && (forall i :: 0 <= i < |s.subs| ==> s.subs[i].item.defined)
  }

  /** An unclosed IF at the end of the file is not looked for. */
  function Compile(lines: seq<Line>): Option<Script> {
    var s := After(lines);
    if s.mode == InSub || s.mode == InKey || !Resolved(s) then None else Some(s)
  }
}
