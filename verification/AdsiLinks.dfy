/**
 What holds of every script the compiler has read so far, and of every script it returns:
 numbers denote table entries, lengths and counts say what was written, and every number
 that was written denotes a definition.
 */
module AdsiLinks {
  import opened Basics
  import opened AdsiScript

  // ---------- tables ----------

  /** Entries are numbered in the order they were added, and there is space for them. */
  ghost predicate TableOk<T>(t: seq<Entry<T>>, max: nat, first: nat) {
    |t| <= max && forall i :: 0 <= i < |t| ==> t[i].id == first + i && |t[i].name| <= NAME_LEN
  }

  /** The later table still has the entries of the earlier one, under the same names and
      numbers. */
  ghost predicate Extends<T>(t': seq<Entry<T>>, t: seq<Entry<T>>) {
    |t| <= |t'| && forall i :: 0 <= i < |t| ==> t'[i].name == t[i].name && t'[i].id == t[i].id
  }

  lemma SameIsTransitive(a: string, b: string, c: string)
    requires Same(a, b)
    ensures Same(b, c) <==> Same(a, c)
  {
  }

  lemma {:induction false} FindIsFirst<T>(t: seq<Entry<T>>, name: string, i: nat)
    requires i < |t| && Same(t[i].name, name)
    requires forall j :: 0 <= j < i ==> !Same(t[j].name, name)
    ensures Find(t, name) == i
  {
    var k := Find(t, name);
    assert !(k < i) && !(i < k);
  }

  /** A name once found is found at the same place in every later table. */
  lemma FindInExtension<T>(t: seq<Entry<T>>, t': seq<Entry<T>>, name: string)
    requires Extends(t', t) && Find(t, name) < |t|
    ensures Find(t', name) == Find(t, name)
  {
    FindIsFirst(t', name, Find(t, name));
  }

  /** A second lookup, in whatever case of letters, gives the entry of the first exactly when
      the name fits its field: a longer name is stored cut, and no lookup of it finds it. */
  lemma LookupIsStable<T>(t: seq<Entry<T>>, name: string, again: string, max: nat, first: nat, item: T)
    requires TableOk(t, max, first) && Same(name, again)
    requires Get(t, name, max, first, item).at.Some?
    ensures var f := Get(t, name, max, first, item);
            Get(f.t, again, max, first, item).at == f.at <==> |name| <= NAME_LEN
  {
    var f := Get(t, name, max, first, item);
    var i := Find(t, name);
    forall j | 0 <= j < |f.t| ensures Same(f.t[j].name, name) <==> Same(f.t[j].name, again) {
      SameIsTransitive(name, again, f.t[j].name);
    }
    if |name| <= NAME_LEN {
      FindIsFirst(f.t, again, i);
    } else {
      assert Find(f.t, again) == |f.t|;
    }
  }

  /** A name of 40 letters: a second lookup adds a second subscript of that name. */
  lemma LongNameIsLost(name: string)
    requires name == seq(40, _ => 'a')
    ensures var f := Get([], name, MAX_SUBS, 0, NO_SUB);
            f.at == Some(0) && Get(f.t, name, MAX_SUBS, 0, NO_SUB).at == Some(1)
  {
    var f := Get([], name, MAX_SUBS, 0, NO_SUB);
    assert |f.t| == 1 && |f.t[0].name| == NAME_LEN && !Same(f.t[0].name, name);
    assert Find(f.t, name) == 1;
  }

  /** Numbers and entries correspond one to one. */
  lemma NumbersAreUnique<T>(t: seq<Entry<T>>, max: nat, first: nat, i: nat, j: nat)
    requires TableOk(t, max, first) && i < |t| && j < |t|
    ensures t[i].id == t[j].id <==> i == j
    ensures first <= t[i].id < first + max
  {
  }

  // ---------- records ----------

  /** The numbers of an instruction are in the tables. */
  ghost predicate InstrOk(i: Instr, keys: nat, subs: nat) {
    match i
    case Plain(_) => true
    case ShowKeys(_, flag, ks) =>
      flag <= MAX_FLAGS && |ks| <= 6 && forall k :: k in ks && k.Id? ==> FIRST_KEY <= k.id < FIRST_KEY + keys
    case CallSub(n) => n < subs
    case OnEvent(event, n, states) => 1 <= event <= |EVENTS| && n < subs && |states| <= 8
    case IfHeader(event, _) => 1 <= event <= |EVENTS|
    case IfGoto(event, n) => 1 <= event <= |EVENTS| && n < subs
  }

  ghost predicate InstrsOk(q: seq<Instr>, keys: nat, subs: nat) {
    forall i :: 0 <= i < |q| ==> InstrOk(q[i], keys, subs)
  }

  function Sizes(q: seq<Instr>, separator: nat): nat {
    if q == [] then 0 else Sizes(q[..|q| - 1], separator) + Size(q[|q| - 1]) + separator
  }

  lemma SizesPush(q: seq<Instr>, i: Instr, separator: nat)
    ensures Sizes(q + [i], separator) == Sizes(q, separator) + Size(i) + separator
  {
    assert (q + [i])[..|q|] == q;
  }

  /** Names and codes of a soft key are within their limits, and the length counts what was
      written: 5 bytes around the names, the names and the codes. */
  ghost predicate KeyOk(k: Key) {
    k == NO_KEY ||
    (&& |k.fullName| <= 18 && |k.shortName| <= 7
     && k.initlen == |k.fullName| + |k.shortName| + 5
     && k.retstrlen == k.initlen + Sizes(k.codes, 0)
     && Sizes(k.codes, 0) <= MAX_RET_CODE
     && (k.defined ==> k.length == k.retstrlen - 2))
  }

  /** Instructions inside of an IF for an event. */
  ghost predicate Block(q: seq<Instr>, event: nat) {
    forall i :: 0 <= i < |q| ==> !q[i].IfHeader? && (q[i].IfGoto? ==> q[i].event == event)
  }

  /** How many instructions an instruction spans, counting an IF with its block. */
  function Span(i: Instr): (n: nat)
    ensures n > 0
  {
    if i.IfHeader? then 1 + i.count else 1
  }

  /** A reader that follows the counts of the IF headers finds each IF with its own
      instructions, and finds the GOTO of an IF nowhere else. */
  ghost predicate Parses(q: seq<Instr>)
    decreases |q|
  {
    q == [] ||
    (&& !q[0].IfGoto? && Span(q[0]) <= |q|
     && (q[0].IfHeader? ==> Block(q[1..Span(q[0])], q[0].event))
     && Parses(q[Span(q[0])..]))
  }

  /** The IF of a subscript that is still open. */
  ghost predicate OpenIf(b: Sub) {
    && b.ifAt < |b.instrs| && b.instrs[b.ifAt].IfHeader?
    && b.ifinscount == |b.instrs| - b.ifAt - 1
    && Block(b.instrs[b.ifAt + 1..], b.instrs[b.ifAt].event)
    && (b.inscount < 256 ==> Parses(b.instrs[..b.ifAt]))
  }

  function HeaderLen(id: nat): nat { if id != 0 then 7 else 3 }

  datatype Place = Unbegun | Open | InsideIf | Closed

  /** A length and a count are stored when the definition is closed, and not before. */
  ghost predicate SubOk(b: Sub, id: nat, place: Place) {
    && b.inscount == |b.instrs|
    && (place != Closed ==> b.length == b.storedCount == 0)
    && (match place
        case Unbegun => !b.defined && b.instrs == []
        case Open => b.datalen == HeaderLen(id) + Sizes(b.instrs, 1) && (b.inscount < 256 ==> Parses(b.instrs))
        case InsideIf => b.datalen == HeaderLen(id) + Sizes(b.instrs, 1) && OpenIf(b)
        case Closed =>
          && b.defined
          && b.datalen == HeaderLen(id) + Sizes(b.instrs, 1) && (b.inscount < 256 ==> Parses(b.instrs))
          && b.length == (b.datalen - 2) % 256
          && (id != 0 ==> b.storedCount == b.inscount % 256))
  }

  ghost function PlaceOf(s: Script, i: nat): Place
    requires i < |s.subs|
  {
    if i == s.sub && s.mode == InSub then Open
    else if i == s.sub && s.mode == InIf then InsideIf
    else if s.subs[i].item.defined then Closed else Unbegun
  }

  ghost predicate DisplayOk(d: Display) {
    && |d.column1| <= 20 && |d.column2| <= 20
    && (d.datalen == 0 || d.datalen == |d.column1| + |d.column2| + 6)
    && (d.header ==> d.datalen > 0 && d.length == d.datalen - 2)
  }

  // ---------- the invariant ----------

  ghost predicate TablesOk(s: Script) {
    && TableOk(s.keys, MAX_KEYS, FIRST_KEY)
    && TableOk(s.subs, MAX_SUBS, 0)
    && TableOk(s.states, MAX_STATES, 1)
    && TableOk(s.displays, MAX_DISPLAYS, 1)
    && TableOk(s.flags, MAX_FLAGS, 1)
  }

  ghost predicate KeysOk(s: Script) {
    forall i :: 0 <= i < |s.keys| ==>
      KeyOk(s.keys[i].item) && InstrsOk(s.keys[i].item.codes, |s.keys|, |s.subs|)
  }

  ghost predicate SubsOk(s: Script) {
    forall i :: 0 <= i < |s.subs| ==>
      SubOk(s.subs[i].item, i, PlaceOf(s, i)) && InstrsOk(s.subs[i].item.instrs, |s.keys|, |s.subs|)
  }

  ghost predicate DisplaysOk(s: Script) {
    forall i :: 0 <= i < |s.displays| ==> DisplayOk(s.displays[i].item)
  }

  ghost predicate ModeOk(s: Script) {
    && s.subs != []
    && (s.mode == InKey ==> s.key < |s.keys| && !s.keys[s.key].item.defined && s.keys[s.key].item.initlen > 0)
    && (s.mode == InSub || s.mode == InIf ==> s.sub < |s.subs|)
  }

  ghost predicate Inv(s: Script) {
    TablesOk(s) && KeysOk(s) && SubsOk(s) && DisplaysOk(s) && ModeOk(s)
  }

  // ---------- lookups and what commands write ----------

  /** Only keys and subscripts without a definition were added. */
  ghost predicate Grown(s: Script, s': Script) {
    && s' == s.(keys := s'.keys, subs := s'.subs)
    && |s.keys| <= |s'.keys| && s'.keys[..|s.keys|] == s.keys
    && |s.subs| <= |s'.subs| && s'.subs[..|s.subs|] == s.subs
    && (forall i :: |s.keys| <= i < |s'.keys| ==> s'.keys[i].item == NO_KEY)
    && (forall i :: |s.subs| <= i < |s'.subs| ==> s'.subs[i].item == NO_SUB)
    && TablesOk(s')
  }

  lemma GetSubGrows(s: Script, name: string)
    requires TablesOk(s)
    ensures var (s', at) := GetSub(s, name);
            Grown(s, s') && s'.keys == s.keys && (at.Some? ==> at.value < |s'.subs|)
  {
  }

  lemma GetKeyGrows(s: Script, name: string)
    requires TablesOk(s)
    ensures var (s', at) := GetKey(s, name);
            Grown(s, s') && s'.subs == s.subs && (at.Some? ==> at.value < |s'.keys|)
  {
  }

  lemma GrownTrans(a: Script, b: Script, c: Script)
    requires Grown(a, b) && Grown(b, c)
    ensures Grown(a, c)
  {
    assert c.keys[..|a.keys|] == c.keys[..|b.keys|][..|a.keys|];
    assert c.subs[..|a.subs|] == c.subs[..|b.subs|][..|a.subs|];
    forall i | |a.keys| <= i < |c.keys| ensures c.keys[i].item == NO_KEY {
      if i < |b.keys| {
        assert c.keys[i] == c.keys[..|b.keys|][i];
      }
    }
    forall i | |a.subs| <= i < |c.subs| ensures c.subs[i].item == NO_SUB {
      if i < |b.subs| {
        assert c.subs[i] == c.subs[..|b.subs|][i];
      }
    }
  }

  /** What a write leaves: grown tables and an instruction whose numbers are in them. */
  ghost predicate WrittenOk(s: Script, w: Written) {
    Grown(s, w.s) && InstrOk(w.instr, |w.s.keys|, |w.s.subs|) && !w.instr.IfHeader? && !w.instr.IfGoto?
  }

  lemma UnlessFlagOk(s: Script, args: seq<string>)
    requires TablesOk(s)
    ensures UnlessFlag(s.flags, args) <= MAX_FLAGS
  {
  }

  lemma {:induction false} ShowKeysOk(s: Script, op: Byte, args: seq<string>, keys: seq<KeyRef>)
    requires TablesOk(s) && |keys| <= 6
    requires forall k :: k in keys && k.Id? ==> FIRST_KEY <= k.id < FIRST_KEY + |s.keys|
    ensures WrittenOk(s, ShowKeysFrom(s, op, args, keys))
    decreases |args|
  {
    if args == [] || Same(args[0], "UNLESS") || |keys| > 5 {
      if args != [] {
        UnlessFlagOk(s, args[1..]);
      }
    } else {
      match Quoted(args[0], 79)
      case None => ShowKeysOk(s, op, args[1..], keys + [Unset]);
      case Some(name) =>
        GetKeyGrows(s, name);
        var (s', at) := GetKey(s, name);
        if at.Some? {
          var w := ShowKeysFrom(s', op, args[1..], keys + [Id(s'.keys[at.value].id)]);
          ShowKeysOk(s', op, args[1..], keys + [Id(s'.keys[at.value].id)]);
          GrownTrans(s, s', w.s);
        }
    }
  }

  lemma {:induction false} StatesOk(states: seq<Entry<()>>, args: seq<string>, count: nat)
    requires count <= 8
    ensures var r := StatesFrom(states, args, count); r.Good? ==> r.count <= 8
    decreases |args|
  {
    if args != [] && Same(args[0], if count == 0 then "IN" else "OR") && count <= 7 && |args| > 2 {
      StatesOk(states, args[2..], count + 1);
    }
  }

  lemma SubscriptOk(s: Script, args: seq<string>)
    requires TablesOk(s)
    ensures WrittenOk(s, Subscript(s, args))
  {
    match QuotedAt(args, 0, 79)
    case None =>
    case Some(name) => GetSubGrows(s, name);
  }

  lemma OnEventOk(s: Script, args: seq<string>)
    requires TablesOk(s)
    ensures WrittenOk(s, OnEventArgs(s, args))
  {
    if args != [] {
      StatesOk(s.states, args[1..], 0);
      match StatesFrom(s.states, args[1..], 0)
      case Bad =>
      case Good(count, rest) =>
        match QuotedAt(rest, 0, 79)
        case None =>
        case Some(name) => GetSubGrows(s, name);
    }
  }

  lemma WriteOk(s: Script, c: Command, line: Line)
    requires TablesOk(s) && line.tokens != []
    ensures WrittenOk(s, Write(s, c, line))
  {
    match c.args
    case NoArgs =>
    case PlainArgs =>
    case KeyArgs => ShowKeysOk(s, c.id, line.tokens[1..], []);
    case SubArgs => SubscriptOk(s, line.tokens[1..]);
    case EventArgs => OnEventOk(s, line.tokens[1..]);
  }

  lemma InstrsOkMono(q: seq<Instr>, keys: nat, subs: nat, keys': nat, subs': nat)
    requires InstrsOk(q, keys, subs) && keys <= keys' && subs <= subs'
    ensures InstrsOk(q, keys', subs')
  {
    forall i | 0 <= i < |q| ensures InstrOk(q[i], keys', subs') {
      assert InstrOk(q[i], keys, subs);
    }
  }

  lemma GrownKeepsKeys(s: Script, s': Script)
    requires Inv(s) && Grown(s, s')
    ensures KeysOk(s')
  {
    forall i | 0 <= i < |s'.keys|
      ensures KeyOk(s'.keys[i].item) && InstrsOk(s'.keys[i].item.codes, |s'.keys|, |s'.subs|)
    {
      if i < |s.keys| {
        assert s'.keys[i] == s'.keys[..|s.keys|][i];
        InstrsOkMono(s.keys[i].item.codes, |s.keys|, |s.subs|, |s'.keys|, |s'.subs|);
      }
    }
  }

  lemma GrownKeepsSubs(s: Script, s': Script)
    requires Inv(s) && Grown(s, s')
    ensures SubsOk(s')
  {
    forall i | 0 <= i < |s'.subs|
      ensures SubOk(s'.subs[i].item, i, PlaceOf(s', i)) && InstrsOk(s'.subs[i].item.instrs, |s'.keys|, |s'.subs|)
    {
      if i < |s.subs| {
        assert s'.subs[i] == s'.subs[..|s.subs|][i];
        InstrsOkMono(s.subs[i].item.instrs, |s.keys|, |s.subs|, |s'.keys|, |s'.subs|);
      }
    }
  }

  lemma GrownKeeps(s: Script, s': Script)
    requires Inv(s) && Grown(s, s')
    ensures Inv(s')
    ensures forall i :: 0 <= i < |s.keys| ==> s'.keys[i] == s.keys[i]
    ensures forall i :: 0 <= i < |s.subs| ==> s'.subs[i] == s.subs[i]
  {
    GrownKeepsKeys(s, s');
    GrownKeepsSubs(s, s');
    assert forall i :: 0 <= i < |s.keys| ==> s'.keys[i] == s'.keys[..|s.keys|][i];
    assert forall i :: 0 <= i < |s.subs| ==> s'.subs[i] == s'.subs[..|s.subs|][i];
  }

  // ---------- changing one record ----------

  lemma SetKeyKeeps(s: Script, k: Key)
    requires Inv(s) && s.mode != InKey && s.key < |s.keys|
    requires KeyOk(k) && InstrsOk(k.codes, |s.keys|, |s.subs|)
    ensures Inv(SetKey(s, k))
  {
  }

  /** Another record for the subscript at hand, perhaps in another mode. */
  lemma SetSubKeeps(s: Script, b: Sub, mode: Mode)
    requires Inv(s) && s.mode != InKey && mode != InKey && s.sub < |s.subs|
    requires var place := if mode == InSub then Open else if mode == InIf then InsideIf
                          else if b.defined then Closed else Unbegun;
             SubOk(b, s.sub, place)
    requires InstrsOk(b.instrs, |s.keys|, |s.subs|)
    ensures Inv(SetSub(s, b).(mode := mode))
  {
    var s' := SetSub(s, b).(mode := mode);
    forall i | 0 <= i < |s'.subs|
      ensures SubOk(s'.subs[i].item, i, PlaceOf(s', i)) && InstrsOk(s'.subs[i].item.instrs, |s'.keys|, |s'.subs|)
    {
      if i != s.sub {
        assert PlaceOf(s', i) == PlaceOf(s, i);
      }
    }
  }
}
