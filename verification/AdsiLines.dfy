/** What each kind of line does, in any script: the tables, the record at hand and the mode. */
module AdsiLines {
  import opened Basics
  import opened AdsiScript
  import opened AdsiResults

  // ---------- names ----------

  /** The same letter, in either case, or the same character. */
  predicate SameLetter(c: char, d: char) {
    c == d || ('A' <= c <= 'Z' && d as int == c as int + 32) || ('A' <= d <= 'Z' && c as int == d as int + 32)
  }

  lemma SameUpToCase(a: string, b: string)
    ensures Same(a, b) <==> |a| == |b| && forall i :: 0 <= i < |a| ==> SameLetter(a[i], b[i])
  {
    forall c: char, d: char ensures Lower(c) == Lower(d) <==> SameLetter(c, d) {}
  }

  function First39(name: string): string {
    if |name| > 39 then name[..39] else name
  }

  /** A subscript that is not found is added with its position, up to 128 of them. */
  lemma SubIsAdded(s: Script, name: string)
    ensures var (q, at) := GetSub(s, name); var n := |s.subs|;
            if Find(s.subs, name) < n then q == s && at == Some(Find(s.subs, name))
            else if n >= 128 then q == s && at == None
            else q == s.(subs := s.subs + [Entry(First39(name), n, Sub(false, [], 0, 0, 0, 0, 0, 0))]) && at == Some(n)
  {
  }

  /** A soft key that is not found is added with its position plus 2, up to 62 of them. */
  lemma KeyIsAdded(s: Script, name: string)
    ensures var (q, at) := GetKey(s, name); var n := |s.keys|;
            if Find(s.keys, name) < n then q == s && at == Some(Find(s.keys, name))
            else if n >= 62 then q == s && at == None
            else at == Some(n)
                 && q == s.(keys := s.keys + [Entry(First39(name), n + 2, Key(false, "", "", [], 0, 0, 0))])
  {
  }

  /** A token in quotes is taken up to a length; anything else is none. */
  lemma QuotedIs(text: string, c: char, max: nat, tok: string)
    ensures Quoted(['"'] + text + [c], max) == Some(if |text| > max then text[..max] else text)
    ensures |tok| < 2 || tok[0] != '"' ==> Quoted(tok, max) == None
  {
    var t := ['"'] + text + [c];
    assert t[1..] == text + [c];
    assert |text| <= max ==> (text + [c])[..|text|] == text;
    assert |text| > max ==> (text + [c])[..max] == text[..max];
  }

  // ---------- events ----------

  lemma {:induction false} PositionAt(names: seq<string>, i: nat)
    requires i < |names| && forall j :: 0 <= j < i ==> !Same(names[j], names[i])
    ensures Position(names, names[i]) == i
  {
    if i > 0 {
      assert !Same(names[0], names[i]) && names[1..][i - 1] == names[i];
      PositionAt(names[1..], i - 1);
    }
  }

  lemma {:induction false} PositionIs(names: seq<string>, name: string)
    ensures var i := Position(names, name);
            && (i < |names| ==> Same(names[i], name))
            && (forall j :: 0 <= j < i ==> !Same(names[j], name))
  {
    if names != [] && !Same(names[0], name) {
      PositionIs(names[1..], name);
      var i := 1 + Position(names[1..], name);
      forall j | 0 <= j < i ensures !Same(names[j], name) {
        assert j > 0 ==> names[j] == names[1..][j - 1];
      }
    }
  }

  /** The events have these names, and their numbers count from 1. */
  lemma EventNumbers(name: string)
    ensures var names := ["CALLERID", "VMWI", "NEARANSWER", "FARANSWER", "ENDOFRING", "IDLE", "OFFHOOK", "CIDCW",
                          "BUSY", "FARRING", "DIALTONE", "RECALL", "MESSAGE", "REORDER", "DISTINCTIVERING", "RING",
                          "REMINDERRING", "SPECIALRING", "CODEDRING", "TIMER", "INUSE", "EVENT22", "EVENT23", "CPEID"];
            var e := EventByName(name);
            && (e == 0 <==> forall i :: 0 <= i < 24 ==> !Same(names[i], name))
            && (e > 0 ==> e <= 24 && Same(names[e - 1], name) && forall i :: 0 <= i < e - 1 ==> !Same(names[i], name))
  {
    PositionIs(EVENTS, name);
  }

  // ---------- SHOWKEYS ----------

  lemma ShowKeysStep(s: Script, op: Byte, args: seq<string>, keys: seq<KeyRef>)
    requires args != [] && !Same(args[0], "UNLESS") && |keys| <= 5
    ensures ShowKeysFrom(s, op, args, keys)
         == match Quoted(args[0], 79)
            case None => ShowKeysFrom(s, op, args[1..], keys + [Unset])
            case Some(name) =>
              var (q, at) := GetKey(s, name);
              if at.Some? && at.value < |q.keys|
              then ShowKeysFrom(q, op, args[1..], keys + [Id(q.keys[at.value].id)])
              else Written(q, ShowKeys(op, 0, keys))
  {
  }

  /** An UNLESS clause behind at most six keys, all of which were written, adds its flag to the
      instruction and changes nothing else; without one there is no flag. */
  lemma {:induction false} UnlessIsWritten(s: Script, op: Byte, names: seq<string>, clause: seq<string>,
                                           keys: seq<KeyRef>, flag: nat)
    requires |keys| + |names| <= 6 && forall n :: n in names ==> !Same(n, "UNLESS")
    requires clause != [] && Same(clause[0], "UNLESS") && flag == UnlessFlag(s.flags, clause[1..])
    ensures var w, u := ShowKeysFrom(s, op, names, keys), ShowKeysFrom(s, op, names + clause, keys);
            && w.instr.ShowKeys? && w.instr.op == op && w.instr.flag == 0
            && (|w.instr.keys| == |keys| + |names| ==> u == Written(w.s, ShowKeys(op, flag, w.instr.keys)))
            && (|w.instr.keys| < |keys| + |names| ==> u == w)
    decreases |names|
  {
    if names == [] {
      assert names + clause == clause;
    } else {
      assert (names + clause)[1..] == names[1..] + clause;
      ShowKeysStep(s, op, names, keys);
      ShowKeysStep(s, op, names + clause, keys);
      match Quoted(names[0], 79)
      case None =>
        UnlessIsWritten(s, op, names[1..], clause, keys + [Unset], flag);
      case Some(name) =>
        var (q, at) := GetKey(s, name);
        if at.Some? && at.value < |q.keys| {
          UnlessIsWritten(q, op, names[1..], clause, keys + [Id(q.keys[at.value].id)], flag);
        }
    }
  }

  /** The flag is that of the first declared one with the name behind UNLESS, and 0 for any other
      token. */
  lemma FlagIsThatOfName(flags: seq<Entry<()>>, tok: string, rest: seq<string>)
    ensures var n := UnlessFlag(flags, [tok] + rest);
            match Quoted(tok, 79)
            case None => n == 0
            case Some(name) => n == if Find(flags, name) < |flags| then flags[Find(flags, name)].id else 0
    ensures UnlessFlag(flags, []) == 0
  {
  }

  /** At most six keys are written; what stands in the place of a seventh is not read. */
  lemma SeventhKeyIsIgnored(s: Script, op: Byte, args: seq<string>, keys: seq<KeyRef>)
    requires |keys| == 6 && args != [] && !Same(args[0], "UNLESS")
    ensures ShowKeysFrom(s, op, args, keys) == Written(s, ShowKeys(op, 0, keys))
  {
  }

  // ---------- ONEVENT ----------

  /** The words "IN s", "OR s" and so on. */
  function InClause(toks: seq<string>, word: string): seq<string> {
    if toks == [] then [] else [word, toks[0]] + InClause(toks[1..], "OR")
  }

  predicate Declared(states: seq<Entry<()>>, tok: string) {
    match Quoted(tok, 80)
    case None => false
    case Some(name) => Find(states, name) < |states|
  }

  /** Up to eight declared states may stand in the clause, and each is counted; with another one, or
      an undeclared one, the clause is refused. */
  lemma {:induction false} ClauseIsCounted(states: seq<Entry<()>>, toks: seq<string>, count: nat, word: string,
                                           rest: seq<string>)
    requires count <= 8 && rest != [] && !Same(rest[0], "IN") && !Same(rest[0], "OR")
    requires word == (if count == 0 then "IN" else "OR") && count + |toks| > 0
    ensures StatesFrom(states, InClause(toks, word) + rest, count)
         == if count + |toks| <= 8 && forall t :: t in toks ==> Declared(states, t)
            then Good(count + |toks|, rest[1..]) else Bad
    decreases |toks|
  {
    var args := InClause(toks, word) + rest;
    if toks == [] {
      assert args == rest;
    } else {
      var later := InClause(toks[1..], "OR") + rest;
      assert args[0] == word && args[1] == toks[0] && args[2..] == later && later != [];
      assert toks == [toks[0]] + toks[1..];
      if count < 8 && Declared(states, toks[0]) {
        assert StatesFrom(states, args, count) == StatesFrom(states, later, count + 1);
        ClauseIsCounted(states, toks[1..], count + 1, "OR", rest);
      }
    }
  }

  /** Without a clause no state is counted, whatever the word is. */
  lemma NoClause(states: seq<Entry<()>>, rest: seq<string>)
    requires rest != [] && !Same(rest[0], "IN")
    ensures StatesFrom(states, rest, 0) == Good(0, rest[1..])
  {
  }

  /** ONEVENT writes the number of the event, that of the subscript, and a 0 for each state. */
  lemma OnEventWrites(s: Script, event: string, toks: seq<string>, rest: seq<string>, name: string)
    requires |rest| > 1 && !Same(rest[0], "IN") && !Same(rest[0], "OR") && Quoted(rest[1], 79) == Some(name)
    requires |toks| <= 8 && (forall t :: t in toks ==> Declared(s.states, t)) && EventByName(event) > 0
    requires Find(s.subs, name) < |s.subs|
    ensures OnEventArgs(s, [event] + (InClause(toks, "IN") + rest))
         == Written(s, OnEvent(EventByName(event), s.subs[Find(s.subs, name)].id, seq(|toks|, _ => 0)))
  {
    var args := [event] + (InClause(toks, "IN") + rest);
    assert args[0] == event && args[1..] == InClause(toks, "IN") + rest;
    if toks == [] {
      assert InClause(toks, "IN") + rest == rest;
      NoClause(s.states, rest);
    } else {
      ClauseIsCounted(s.states, toks, 0, "IN", rest);
    }
    assert Zeros(|toks|) == seq(|toks|, _ => 0);
  }

  lemma {:induction false} ClauseLeavesNothing(states: seq<Entry<()>>, toks: seq<string>, count: nat, word: string)
    requires word == (if count == 0 then "IN" else "OR")
    ensures var r := StatesFrom(states, InClause(toks, word), count); r == Bad || (r.Good? && r.rest == [])
    decreases |toks|
  {
    if toks != [] {
      var args := InClause(toks, word);
      assert args[0] == word && args[1] == toks[0] && args[2..] == InClause(toks[1..], "OR");
      if count < 8 && Declared(states, toks[0]) && |toks| > 1 {
        assert StatesFrom(states, args, count) == StatesFrom(states, args[2..], count + 1);
        ClauseLeavesNothing(states, toks[1..], count + 1, "OR");
      }
    }
  }

  /** ONEVENT without an event that is known, or without anything behind its clause, writes nothing. */
  lemma OnEventIsRefused(s: Script, event: string, rest: seq<string>, toks: seq<string>)
    ensures OnEventArgs(s, []) == Written(s, Plain([]))
    ensures EventByName(event) == 0 ==> OnEventArgs(s, [event] + rest) == Written(s, Plain([]))
    ensures OnEventArgs(s, [event] + InClause(toks, "IN")) == Written(s, Plain([]))
  {
    assert ([event] + InClause(toks, "IN"))[1..] == InClause(toks, "IN");
    ClauseLeavesNothing(s.states, toks, 0, "IN");
  }

  // ---------- soft keys ----------

  /** A line of a kind outside of definitions. */
  predicate Opens(s: Script, line: Line, word: string) {
    s.mode == Normal && line.tokens != [] && Same(line.tokens[0], word)
  }

  /** A line inside of a definition that is none of its commands. */
  predicate Ends(s: Script, line: Line, mode: Mode, word: string) {
    && s.mode == mode && line.tokens != [] && Same(line.tokens[0], word)
    && CommandByName(if mode == InKey then KEY_COMMANDS else SUB_COMMANDS, line.tokens[0]) == None
  }

  lemma KeyEnded(s: Script, line: Line)
    requires s.mode == InKey && line.tokens != [] && CommandByName(KEY_COMMANDS, line.tokens[0]) == None
    requires Same(line.tokens[0], "ENDKEY")
    ensures Process(s, line) == EndKey(s)
  {
  }

  /** KEY opens a key that is not defined yet, with names of at most 18 and 7 characters and 5 bytes
      around them; the short name is also the full one when there is no OR. */
  lemma KeyOpens(s: Script, line: Line, name: string, short: string, full: string, at: nat)
    requires Opens(s, line, "KEY") && |line.tokens| == 6 && GetKey(s, name).1 == Some(at)
    requires Quoted(line.tokens[1], 255) == Some(name) && Same(line.tokens[2], "IS")
    requires Quoted(line.tokens[3], 79) == Some(short) && Same(line.tokens[4], "OR")
    requires Quoted(line.tokens[5], 79) == Some(full) && |full| <= 18 && |short| <= 7
    requires at < |GetKey(s, name).0.keys|
    ensures var q := GetKey(s, name).0; var k := q.keys[at].item; var n := |full| + |short| + 5;
            Process(s, line)
            == if k.defined then q.(key := at)
               else q.(mode := InKey, key := at,
                       keys := q.keys[at := q.keys[at].(item := Key(false, full, short, [], n, n, k.length))])
  {
  }

  lemma ShortNameIsFull(toks: seq<string>, short: string)
    requires |toks| == 4 && Same(toks[2], "IS") && Quoted(toks[3], 79) == Some(short)
    ensures KeyNames(toks) == Some((short, short))
  {
  }

  lemma LongNamesAreCut(k: Key, short: string, full: string)
    ensures var q := KeyHeader(k, short, full);
            && q.fullName == (if |full| > 18 then full[..18] else full)
            && q.shortName == (if |short| > 7 then short[..7] else short)
            && q.retstrlen == q.initlen == |q.fullName| + |q.shortName| + 5 && q.codes == []
  {
  }

  /** ENDKEY defines the key, with its length without the first two bytes. */
  lemma KeyEnds(s: Script, line: Line)
    requires Ends(s, line, InKey, "ENDKEY") && s.key < |s.keys|
    ensures var k := s.keys[s.key].item;
            Process(s, line)
            == s.(mode := Normal,
                  keys := s.keys[s.key := s.keys[s.key].(item := k.(defined := true,
                                                                    length := (k.retstrlen - 2) % 256))])
  {
    KeyEnded(s, line);
  }

  /** A code of a soft key is added when the codes then have at most 20 bytes, and dropped otherwise. */
  lemma CodeIsAdded(s: Script, line: Line, c: Command)
    requires s.mode == InKey && line.tokens != [] && CommandByName(KEY_COMMANDS, line.tokens[0]) == Some(c)
    requires var q := Write(s, c, line).s; q.key < |q.keys|
    ensures var w := Write(s, c, line); var k := w.s.keys[w.s.key].item; var n := Size(w.instr);
            Process(s, line)
            == if k.retstrlen + n - k.initlen <= 20
               then w.s.(keys := w.s.keys[w.s.key := w.s.keys[w.s.key].(item := k.(codes := k.codes + [w.instr],
                                                                                   retstrlen := k.retstrlen + n))])
               else w.s
  {
  }

  // ---------- subscripts ----------

  /** SUB opens a subscript that is not defined yet; main, number 0, has 3 bytes in front, and any
      other one 7. */
  lemma SubOpens(s: Script, line: Line, name: string, at: nat)
    requires Opens(s, line, "SUB") && |line.tokens| > 2 && Quoted(line.tokens[1], 255) == Some(name)
    requires Same(line.tokens[2], "IS") && GetSub(s, name).1 == Some(at) && at < |GetSub(s, name).0.subs|
    ensures var q := GetSub(s, name).0; var b := q.subs[at].item;
            Process(s, line)
            == if b.defined then q.(sub := at)
               else q.(mode := InSub, sub := at,
                       subs := q.subs[at := q.subs[at].(item := b.(instrs := [],
                                                                   datalen := if q.subs[at].id == 0 then 3 else 7))])
  {
    assert "SUB"[0] == 'S' && "KEY"[0] == 'K' && Lower(line.tokens[0][0]) == 's';
  }

  /** A command of a subscript is added with a separator when main then has at most 1600 bytes, any
      other one at most 255; inside of an IF it is counted there too. */
  lemma CommandIsAdded(s: Script, line: Line, c: Command)
    requires (s.mode == InSub || s.mode == InIf) && line.tokens != []
    requires CommandByName(SUB_COMMANDS, line.tokens[0]) == Some(c)
    requires var q := Write(s, c, line).s; q.sub < |q.subs| && q.subs[q.sub].id < 128
    requires var w := Write(s, c, line); var e := w.s.subs[w.s.sub];
             e.item.datalen + Size(w.instr) + 1 <= if e.id == 0 then 1600 else 255
    ensures var w := Write(s, c, line); var q := w.s; var b := q.subs[q.sub].item;
            var added := b.(instrs := b.instrs + [w.instr], datalen := b.datalen + Size(w.instr) + 1,
                            inscount := b.inscount + 1,
                            ifinscount := if s.mode == InIf then b.ifinscount + 1 else b.ifinscount);
            Process(s, line) == q.(subs := q.subs[q.sub := q.subs[q.sub].(item := added)])
  {
  }

  lemma CommandIsRefused(s: Script, line: Line, c: Command)
    requires (s.mode == InSub || s.mode == InIf) && line.tokens != []
    requires CommandByName(SUB_COMMANDS, line.tokens[0]) == Some(c)
    requires var q := Write(s, c, line).s; q.sub < |q.subs|
    requires var w := Write(s, c, line); var e := w.s.subs[w.s.sub];
             e.item.datalen + Size(w.instr) + 1 > if e.id == 0 then 1600 else 255
    ensures ProcessOpcode(s, line) == Processed(Write(s, c, line).s, false)
  {
  }

  /** ENDSUB defines the subscript, with its length without the first two bytes and, but for main, the
      number of its instructions. */
  lemma SubEnds(s: Script, line: Line)
    requires Ends(s, line, InSub, "ENDSUB") && s.sub < |s.subs|
    ensures var b := s.subs[s.sub].item;
            var count := if s.subs[s.sub].id == 0 then b.storedCount else b.inscount % 256;
            Process(s, line)
            == s.(mode := Normal,
                  subs := s.subs[s.sub := s.subs[s.sub].(item := b.(defined := true, length := (b.datalen - 2) % 256,
                                                                    storedCount := count))])
  {
  }

  lemma IfBegun(s: Script, line: Line)
    requires s.mode == InSub && line.tokens != [] && CommandByName(SUB_COMMANDS, line.tokens[0]) == None
    requires Same(line.tokens[0], "IFEVENT") && !Same(line.tokens[0], "ENDSUB")
    ensures Process(s, line) == BeginIf(s, line.tokens)
  {
  }

  lemma HeaderAdded(s: Script, toks: seq<string>)
    requires s.sub < |s.subs| && |toks| > 2 && EventByName(toks[1]) > 0 && Same(toks[2], "THEN")
    ensures var b := s.subs[s.sub].item; var n := |b.instrs|;
            var item := b.(instrs := b.instrs + [IfHeader(EventByName(toks[1]), 0)], datalen := b.datalen + 4,
                           inscount := b.inscount + 1, ifAt := n, ifinscount := 0);
            BeginIf(s, toks) == s.(mode := InIf, subs := s.subs[s.sub := s.subs[s.sub].(item := item)])
  {
  }

  lemma GotoStored(s: Script, line: Line, name: string)
    requires s.mode == InIf && |line.tokens| > 1 && CommandByName(SUB_COMMANDS, line.tokens[0]) == None
    requires Same(line.tokens[0], "GOTO") && !Same(line.tokens[0], "ENDIF")
    requires Quoted(line.tokens[1], 79) == Some(name) && Find(s.subs, name) < |s.subs|
    ensures Process(s, line) == StoreIfGoto(s, Find(s.subs, name))
  {
    assert GetSub(s, name) == (s, Some(Find(s.subs, name)));
    assert Process(s, line) == IfGotoLine(s, line.tokens);
  }

  /** IFEVENT of a known event opens an IF: its header has 3 bytes and a separator, and nothing is
      counted in it yet. */
  lemma IfOpensBlock(s: Script, line: Line)
    requires Ends(s, line, InSub, "IFEVENT") && s.sub < |s.subs|
    requires |line.tokens| > 2 && EventByName(line.tokens[1]) > 0 && Same(line.tokens[2], "THEN")
    ensures var b := s.subs[s.sub].item; var n := |b.instrs|;
            var item := b.(instrs := b.instrs + [IfHeader(EventByName(line.tokens[1]), 0)], datalen := b.datalen + 4,
                           inscount := b.inscount + 1, ifAt := n, ifinscount := 0);
            Process(s, line) == s.(mode := InIf, subs := s.subs[s.sub := s.subs[s.sub].(item := item)])
  {
    assert |"IFEVENT"| != |"ENDSUB"|;
    IfBegun(s, line);
    HeaderAdded(s, line.tokens);
  }

  /** GOTO in an IF adds the event of the IF and the number of the subscript, 3 bytes and a separator,
      and is counted in the IF. */
  lemma GotoInIf(s: Script, line: Line, name: string)
    requires Ends(s, line, InIf, "GOTO") && |line.tokens| > 1 && Quoted(line.tokens[1], 79) == Some(name)
    requires Find(s.subs, name) < |s.subs| && s.sub < |s.subs|
    requires var b := s.subs[s.sub].item; b.ifAt < |b.instrs| && b.instrs[b.ifAt].IfHeader?
    ensures var b := s.subs[s.sub].item;
            var jump := IfGoto(b.instrs[b.ifAt].event, s.subs[Find(s.subs, name)].id);
            var added := b.(instrs := b.instrs + [jump], datalen := b.datalen + 4, inscount := b.inscount + 1,
                            ifinscount := b.ifinscount + 1);
            Process(s, line) == s.(subs := s.subs[s.sub := s.subs[s.sub].(item := added)])
  {
    assert |"GOTO"| != |"ENDIF"|;
    GotoStored(s, line, name);
  }

  /** ENDIF stores the count in the header of the IF; the subscript already counts as defined. */
  lemma IfEndsBlock(s: Script, line: Line)
    requires Ends(s, line, InIf, "ENDIF") && s.sub < |s.subs|
    requires var b := s.subs[s.sub].item; b.ifAt < |b.instrs| && b.instrs[b.ifAt].IfHeader?
    ensures var b := s.subs[s.sub].item;
            var header := IfHeader(b.instrs[b.ifAt].event, b.ifinscount % 256);
            Process(s, line)
            == s.(mode := InSub,
                  subs := s.subs[s.sub := s.subs[s.sub].(item := b.(defined := true,
                                                                    instrs := b.instrs[b.ifAt := header]))])
  {
  }

  // ---------- states, flags and displays ----------

  /** A state is declared once, with its position plus 1, up to 254 of them. */
  lemma StateIsDeclared(s: Script, line: Line, name: string)
    requires Opens(s, line, "STATE") && |line.tokens| > 1 && Quoted(line.tokens[1], 255) == Some(name)
    ensures var n := |s.states|;
            Process(s, line)
            == if Find(s.states, name) < n || n >= 254 then s
               else s.(states := s.states + [Entry(First39(name), n + 1, ())])
  {
    assert |"STATE"| != |"KEY"| && |"STATE"| != |"SUB"|;
  }

  /** A flag is declared once, with its position plus 1, up to 7 of them. */
  lemma FlagIsDeclared(s: Script, line: Line, name: string)
    requires Opens(s, line, "FLAG") && |line.tokens| > 1 && Quoted(line.tokens[1], 255) == Some(name)
    ensures var n := |s.flags|;
            Process(s, line)
            == if Find(s.flags, name) < n || n >= 7 then s
               else s.(flags := s.flags + [Entry(First39(name), n + 1, ())])
  {
    assert |"FLAG"| != |"KEY"| && |"FLAG"| != |"SUB"| && |"FLAG"| != |"STATE"|;
  }

  /** A display is declared once, with its position plus 1, up to 62 of them. */
  lemma DisplayIsDeclared(s: Script, line: Line, name: string)
    requires Opens(s, line, "DISPLAY") && |line.tokens| > 1 && Quoted(line.tokens[1], 255) == Some(name)
    ensures var n := |s.displays|;
            Process(s, line)
            == if Find(s.displays, name) < n || n >= 62 then s
               else s.(displays := s.displays + [Entry(First39(name), n + 1, DisplayItem(NO_DISPLAY, line.tokens))])
  {
    assert |"DISPLAY"| != |"KEY"| && |"DISPLAY"| != |"SUB"|;
    assert |"DISPLAY"| != |"STATE"| && |"DISPLAY"| != |"FLAG"|;
  }

  /** A display without IS and a text in quotes stays as it is; with one column it has 5 bytes, the text
      and a separator; its header is written unless a qualifier is wrong. */
  lemma OneColumn(toks: seq<string>, c: string)
    ensures |toks| < 4 || !Same(toks[2], "IS") || Quoted(toks[3], 79).None? ==>
              DisplayItem(NO_DISPLAY, toks) == Display("", "", 0, false, 0, 0, false)
    ensures && |toks| >= 4 && Same(toks[2], "IS") && Quoted(toks[3], 79) == Some(c)
            && (|toks| > 4 ==> Quoted(toks[4], 79).None?) ==>
              var a := if |c| > 20 then c[..20] else c;
              DisplayItem(NO_DISPLAY, toks)
              == match QualifiersFrom(toks[4..], 0, false)
                 case Wrong => Display(a, "", |a| + 6, false, 0, 0, false)
                 case Right(j, w) => Display(a, "", |a| + 6, true, |a| + 4, j, w)
  {
  }

  /** With two columns, of at most 20 characters each, it has both of them and 6 bytes more. */
  lemma TwoColumns(toks: seq<string>, c1: string, c2: string)
    requires |toks| > 4 && Same(toks[2], "IS") && Quoted(toks[3], 79) == Some(c1) && Quoted(toks[4], 79) == Some(c2)
    ensures var a, b := if |c1| > 20 then c1[..20] else c1, if |c2| > 20 then c2[..20] else c2;
            var n := |a| + |b| + 6;
            DisplayItem(NO_DISPLAY, toks)
            == match QualifiersFrom(toks[5..], 0, false)
               case Wrong => Display(a, b, n, false, 0, 0, false)
               case Right(j, w) => Display(a, b, n, true, n - 2, j, w)
  {
  }

  /** The qualifiers: the last justification counts, and WRAP once is enough. */
  lemma QualifiersAre(toks: seq<string>, justify: nat, wrap: bool)
    ensures QualifiersFrom([], justify, wrap) == Right(justify, wrap)
    ensures |toks| == 1 && Same(toks[0], "JUSTIFY") ==> QualifiersFrom(toks, justify, wrap) == Right(justify, wrap)
    ensures toks != [] && Same(toks[0], "WRAP") ==>
              QualifiersFrom(toks, justify, wrap) == QualifiersFrom(toks[1..], justify, true)
    ensures |toks| > 1 && Same(toks[0], "JUSTIFY") && Position(JUSTIFY, toks[1]) < 4 ==>
              QualifiersFrom(toks, justify, wrap) == QualifiersFrom(toks[2..], Position(JUSTIFY, toks[1]), wrap)
    ensures |toks| > 1 && Same(toks[0], "JUSTIFY") && Position(JUSTIFY, toks[1]) == 4 ==>
              QualifiersFrom(toks, justify, wrap) == Wrong
    ensures toks != [] && !Same(toks[0], "WRAP") && !Same(toks[0], "JUSTIFY") ==>
              QualifiersFrom(toks, justify, wrap) == Wrong
  {
    assert |"WRAP"| != |"JUSTIFY"|;
  }

  lemma Justifications(name: string)
    ensures var names := ["CENTER", "RIGHT", "LEFT", "INDENT"]; var i := Position(JUSTIFY, name);
            && i <= 4 && (i < 4 ==> Same(names[i], name))
            && forall j :: 0 <= j < i ==> !Same(names[j], name)
  {
    PositionIs(JUSTIFY, name);
  }

  // ---------- commands ----------

  lemma {:induction false} CommandIs(cmds: seq<Command>, name: string)
    ensures match CommandByName(cmds, name)
            case None => forall i :: 0 <= i < |cmds| ==> !Same(cmds[i].name, name)
            case Some(c) => exists i :: 0 <= i < |cmds| && c == cmds[i] && Same(cmds[i].name, name)
                                        && forall j :: 0 <= j < i ==> !Same(cmds[j].name, name)
  {
    if cmds != [] && !Same(cmds[0].name, name) {
      CommandIs(cmds[1..], name);
      match CommandByName(cmds[1..], name)
      case None =>
        forall i | 0 <= i < |cmds| ensures !Same(cmds[i].name, name) {
          assert i > 0 ==> cmds[i] == cmds[1..][i - 1];
        }
      case Some(c) =>
        var i :| 0 <= i < |cmds[1..]| && c == cmds[1..][i] && Same(cmds[1..][i].name, name)
                 && forall j :: 0 <= j < i ==> !Same(cmds[1..][j].name, name);
        forall j | 0 <= j < i + 1 ensures !Same(cmds[j].name, name) {
          assert j > 0 ==> cmds[j] == cmds[1..][j - 1];
        }
        assert c == cmds[i + 1];
    }
  }

  /** The commands of subscripts in the order of the search, and the byte of each. */
  lemma SubCommands(i: nat)
    requires i < 12
    ensures |SUB_COMMANDS| == 12
    ensures var names := ["SHOWKEYS", "SHOWDISPLAY", "CLEARDISPLAY", "CLEAR", "SETSTATE", "TIMERSTART",
                          "TIMERCLEAR", "ONEVENT", "SETFLAG", "CLEARFLAG", "DELAY", "EXIT"];
            var ids := [2, 3, 3, 5, 6, 7, 7, 8, 10, 10, 11, 12];
            SUB_COMMANDS[i].name == names[i] && SUB_COMMANDS[i].id == ids[i]
    ensures SUB_COMMANDS[i].args
         == match SUB_COMMANDS[i].id
            case 2 => KeyArgs
            case 5 | 12 => NoArgs
            case 8 => EventArgs
            case _ => PlainArgs
  {
  }

  /** The commands of soft keys, and the byte of each. */
  lemma KeyCommands(cmds: seq<Command>)
    requires cmds == [
             Command("SENDDTMF", 0, PlainArgs), Command("ONHOOK", 0x81, NoArgs), Command("OFFHOOK", 0x82, NoArgs),
             Command("FLASH", 0x83, NoArgs), Command("WAITDIALTONE", 0x84, NoArgs), Command("BLANK", 0x86, NoArgs),
             Command("SENDCHARS", 0x87, NoArgs), Command("CLEARCHARS", 0x88, NoArgs),
             Command("BACKSPACE", 0x89, NoArgs), Command("GOTOLINE", 0x8b, PlainArgs),
             Command("GOTOLINEREL", 0x8c, PlainArgs), Command("PAGEUP", 0x8d, NoArgs),
             Command("PAGEDOWN", 0x8e, NoArgs), Command("DELAY", 0x90, PlainArgs),
             Command("DIALPULSEONE", 0x91, NoArgs), Command("DATAMODE", 0x92, NoArgs),
             Command("VOICEMODE", 0x93, NoArgs), Command("CLEARCB1", 0x95, PlainArgs),
             Command("DIGITCOLLECT", 0x96, PlainArgs), Command("DIGITDIRECT", 0x96, PlainArgs),
             Command("CLEAR", 0x97, NoArgs), Command("SHOWDISPLAY", 0x98, PlainArgs),
             Command("CLEARDISPLAY", 0x98, PlainArgs), Command("SHOWKEYS", 0x99, KeyArgs),
             Command("SETSTATE", 0x9a, PlainArgs), Command("TIMERSTART", 0x9b, PlainArgs),
             Command("TIMERCLEAR", 0x9b, PlainArgs), Command("SETFLAG", 0x9c, PlainArgs),
             Command("CLEARFLAG", 0x9c, PlainArgs), Command("GOTO", 0x9d, SubArgs), Command("EVENT22", 0x9e, NoArgs),
             Command("EVENT23", 0x9f, NoArgs), Command("EXIT", 0xa0, NoArgs)]
    ensures KEY_COMMANDS == cmds
  {
  }

  /** What a command writes, by its arguments. */
  lemma CommandWrites(s: Script, c: Command, line: Line)
    requires line.tokens != []
    ensures c.args == NoArgs ==> Write(s, c, line) == Written(s, Plain([c.id]))
    ensures c.args == PlainArgs ==> Write(s, c, line) == Written(s, Plain(line.plain))
    ensures c.args == KeyArgs ==> Write(s, c, line) == ShowKeysFrom(s, c.id, line.tokens[1..], [])
    ensures c.args == EventArgs ==> Write(s, c, line) == OnEventArgs(s, line.tokens[1..])
    ensures c.args == SubArgs && |line.tokens| > 1 && Quoted(line.tokens[1], 79).Some? ==>
              var i := Find(s.subs, Quoted(line.tokens[1], 79).value);
              i < |s.subs| ==> Write(s, c, line) == Written(s, CallSub(s.subs[i].id))
    ensures c.args == SubArgs && (|line.tokens| == 1 || Quoted(line.tokens[1], 79).None?) ==>
              Write(s, c, line) == Written(s, Plain([]))
  {
    assert |line.tokens| > 1 ==> line.tokens[1..][0] == line.tokens[1];
  }

  /** How many bytes an instruction has. */
  lemma SizesAre(bytes: seq<Byte>, op: Byte, n: nat, m: nat, keys: seq<KeyRef>, states: seq<nat>)
    ensures Size(Plain(bytes)) == |bytes| && Size(ShowKeys(op, n, keys)) == 2 + |keys| && Size(CallSub(n)) == 2
    ensures Size(OnEvent(n, m, states)) == 3 + |states| && Size(IfHeader(n, m)) == 3 && Size(IfGoto(n, m)) == 3
  {
  }

  // ---------- lines that are refused, and the end of the file ----------

  /** The names of a key: IS and a token in quotes, and OR and another one unless the line ends. */
  lemma KeyNamesAre(toks: seq<string>)
    ensures KeyNames(toks).None? <==>
            || |toks| < 4 || !Same(toks[2], "IS") || Quoted(toks[3], 79).None?
            || (|toks| > 4 && (!Same(toks[4], "OR") || |toks| == 5 || Quoted(toks[5], 79).None?))
    ensures |toks| > 5 && KeyNames(toks).Some? ==>
              KeyNames(toks) == Some((Quoted(toks[3], 79).value, Quoted(toks[5], 79).value))
  {
  }

  /** A key whose names are not well formed is looked up and nothing else, and so is a subscript without
      IS, but for its length. */
  lemma BadDefinition(s: Script, toks: seq<string>, at: nat)
    ensures at < |s.keys| && KeyNames(toks).None? ==> OpenKey(s, at, toks) == s.(key := at)
    ensures at < |s.subs| && !s.subs[at].item.defined && (|toks| < 3 || !Same(toks[2], "IS")) ==>
              OpenSub(s, at, toks).mode == s.mode && OpenSub(s, at, toks).sub == at
              && OpenSub(s, at, toks).subs[at].item.datalen == if s.subs[at].id == 0 then 3 else 7
  {
  }

  /** A line that is no command and no word of its place does nothing. */
  lemma UnknownLine(s: Script, line: Line)
    requires line.tokens != []
    requires s.mode == Normal ==>
               !Same(line.tokens[0], "KEY") && !Same(line.tokens[0], "SUB") && !Same(line.tokens[0], "STATE")
               && !Same(line.tokens[0], "FLAG") && !Same(line.tokens[0], "DISPLAY")
    requires s.mode == InKey ==> CommandByName(KEY_COMMANDS, line.tokens[0]).None? && !Same(line.tokens[0], "ENDKEY")
    requires s.mode == InSub || s.mode == InIf ==> CommandByName(SUB_COMMANDS, line.tokens[0]).None?
    requires s.mode == InSub ==> !Same(line.tokens[0], "ENDSUB") && !Same(line.tokens[0], "IFEVENT")
    requires s.mode == InIf ==> !Same(line.tokens[0], "ENDIF") && !Same(line.tokens[0], "GOTO")
    ensures Process(s, line) == s && Process(s, Line([], line.plain)) == s
  {
  }

  /** IFEVENT of an event that is not known, or without THEN, does nothing, and neither does a GOTO in an
      IF that is not followed by a token in quotes. */
  lemma BadIfLine(s: Script, line: Line)
    ensures && Ends(s, line, InSub, "IFEVENT")
            && (|line.tokens| < 3 || EventByName(line.tokens[1]) == 0 || !Same(line.tokens[2], "THEN")) ==>
              Process(s, line) == s
    ensures && Ends(s, line, InIf, "GOTO") && (|line.tokens| < 2 || Quoted(line.tokens[1], 79).None?) ==>
              Process(s, line) == s
  {
    assert |"IFEVENT"| != |"ENDSUB"| && |"GOTO"| != |"ENDIF"|;
    if Ends(s, line, InSub, "IFEVENT") {
      IfBegun(s, line);
    }
  }

  /** A file is compiled exactly when it ends outside of keys and subscripts, or in an IF, and every
      key and subscript that it names is defined. */
  lemma CompiledIff(lines: seq<Line>)
    ensures var s := After(lines);
            if && (s.mode == Normal || s.mode == InIf)
               && (forall i :: 0 <= i < |s.keys| ==> s.keys[i].item.defined)
               && (forall i :: 0 <= i < |s.subs| ==> s.subs[i].item.defined)
            then Compile(lines) == Some(s) else Compile(lines) == None
    ensures After([]) == Script(Normal, [], [Entry("main", 0, Sub(false, [], 0, 0, 0, 0, 0, 0))], [], [], [], 0, 0)
  {
    MainIsNamed();
  }
}
