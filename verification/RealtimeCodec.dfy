/**
 How values are stored in a column and read back: ';' and '^' are written as a caret and two
 hexadecimal digits; a column is split at ';' and every piece is decoded in place.
 */
module RealtimeCodec {
  import opened Basics

  const NUL := 0 as char

  // ---------- writing ----------

  lemma Assoc<T>(a: seq<T>, b: seq<T>, c: seq<T>)
    ensures a + (b + c) == (a + b) + c
  {
  }

  function EscapeChar(c: char): string {
    if c == ';' then "^3B" else if c == '^' then "^5E" else [c]
  }

  function Escape(s: string): string {
    if s == "" then "" else Escape(s[..|s| - 1]) + EscapeChar(s[|s| - 1])
  }

  /** The loop of the macro. */
  method EscapeString(text: string) returns (semi: string)
    ensures semi == Escape(text)
  {
    semi := "";
    for i := 0 to |text|
      invariant semi == Escape(text[..i])
    {
      assert text[..i + 1][..i] == text[..i];
      if text[i] == ';' || text[i] == '^' {
        semi := semi + if text[i] == ';' then "^3B" else "^5E";
      } else {
        semi := semi + [text[i]];
      }
    }
    assert text[..|text|] == text;
  }

  // ---------- reading ----------

  predicate IsHex(c: char) {
    '0' <= c <= '9' || 'A' <= c <= 'F' || 'a' <= c <= 'f'
  }

  function HexValue(c: char): (v: nat)
    requires IsHex(c)
    ensures v < 16
  {
    if '0' <= c <= '9' then (c - '0') as nat
    else if 'A' <= c <= 'F' then (c - 'A') as nat + 10
    else (c - 'a') as nat + 10
  }

  predicate Coded(s: string) {
    |s| >= 3 && s[0] == '^' && IsHex(s[1]) && IsHex(s[2])
  }

  function CodedChar(s: string): char
    requires Coded(s)
  {
    (HexValue(s[1]) * 16 + HexValue(s[2])) as char
  }

  function Decode(s: string): string {
    if s == "" then ""
    else if Coded(s) then [CodedChar(s)] + Decode(s[3..])
    else [s[0]] + Decode(s[1..])
  }

  /** Reading a piece does not look behind its end: it does not end in a caret, nor in a caret
      and one digit. */
  predicate Safe(s: string) {
    forall i :: 0 <= i < |s| && s[i] == '^' ==> i + 1 < |s| && (IsHex(s[i + 1]) ==> i + 2 < |s|)
  }

  /** The string a piece of memory holds: what is before the first NUL. */
  function CString(s: string): string {
    if s == "" || s[0] == NUL then "" else [s[0]] + CString(s[1..])
  }

  predicate NoNul(s: string) {
    forall i :: 0 <= i < |s| ==> s[i] != NUL
  }

  /** The string that begins at a position of a memory and ends before a NUL. */
  predicate Holds(m: seq<char>, at: nat, s: string) {
    at + |s| < |m| && NoNul(s) && m[at + |s|] == NUL && forall i :: 0 <= i < |s| ==> m[at + i] == s[i]
  }

  /** Outside of an interval two memories agree. */
  predicate SameOutside(m: seq<char>, m': seq<char>, from: nat, to: nat) {
    |m'| == |m| && forall j :: 0 <= j < |m| && (j < from || to <= j) ==> m'[j] == m[j]
  }

  lemma NulComesAfter(a: array<char>, at: nat, s: string)
    requires Holds(a[..], at, s)
    ensures forall j :: at <= j < at + |s| ==> a[j] != NUL
  {
    var m := a[..];
    forall j | at <= j < at + |s| ensures a[j] != NUL {
      assert m[at + (j - at)] == s[j - at];
    }
  }

  method StrLen(a: array<char>, at: nat, ghost s: string) returns (n: nat)
    requires Holds(a[..], at, s)
    ensures n == |s|
  {
    n := 0;
    NulComesAfter(a, at, s);
    assert a[..][at + |s|] == NUL;
    while a[at + n] != NUL
      invariant n <= |s|
      decreases |s| - n
    {
      n := n + 1;
    }
  }

  /** n characters move towards the front, one after the other. */
  method Memmove(a: array<char>, dst: nat, src: nat, n: nat)
    requires dst < src && src + n <= a.Length
    modifies a
    ensures SameOutside(old(a[..]), a[..], dst, dst + n)
    ensures forall j :: dst <= j < dst + n ==> a[..][j] == old(a[..])[j + (src - dst)]
  {
    for i := 0 to n
      invariant SameOutside(old(a[..]), a[..], dst, dst + i)
      invariant forall j :: dst <= j < dst + i ==> a[..][j] == old(a[..])[j + (src - dst)]
    {
      assert a[src + i] == a[..][src + i];
      a[dst + i] := a[src + i];
    }
  }

  lemma SafeTail(s: string, n: nat)
    requires Safe(s) && n <= |s|
    ensures Safe(s[n..])
  {
    forall i | 0 <= i < |s[n..]| && s[n..][i] == '^'
      ensures i + 1 < |s[n..]| && (IsHex(s[n..][i + 1]) ==> i + 2 < |s[n..]|)
    {
      assert s[n + i] == '^';
    }
  }

  lemma HoldsTail(m: seq<char>, at: nat, s: string, n: nat)
    requires Holds(m, at, s) && n <= |s|
    ensures Holds(m, at + n, s[n..])
  {
    forall i | 0 <= i < |s[n..]| ensures m[at + n + i] == s[n..][i] {
      assert m[at + (n + i)] == s[n + i];
    }
  }

  /** One code is replaced by its character and the rest moves up. */
  lemma Replaced(m: seq<char>, m': seq<char>, at: nat, s: string)
    requires Holds(m, at, s) && |s| >= 3 && |m'| == |m|
    requires SameOutside(m[at := m'[at]], m', at + 1, at + |s| - 1)
    requires forall j :: at + 1 <= j < at + |s| - 1 ==> m'[j] == m[at := m'[at]][j + 2]
    ensures Holds(m', at + 1, s[3..])
  {
    forall i | 0 <= i < |s| - 3 ensures m'[at + 1 + i] == s[3..][i] {
      assert m'[at + 1 + i] == m[at + (3 + i)];
    }
    assert m'[at + 1 + (|s| - 3)] == m[at + |s|];
  }

  /** The body of the loop for a code. */
  method ReplaceCode(a: array<char>, at: nat, ghost s: string)
    requires Holds(a[..], at, s) && Coded(s)
    modifies a
    ensures a[at] == CodedChar(s)
    ensures Holds(a[..], at + 1, s[3..])
    ensures SameOutside(old(a[..]), a[..], at, at + |s|)
  {
    ghost var m := a[..];
    HoldsTail(m, at, s, 3);
    var n := StrLen(a, at + 3, s[3..]);
    assert m[at + 1] == s[1] && m[at + 2] == s[2];
    a[at] := (HexValue(a[at + 1]) * 16 + HexValue(a[at + 2])) as char;
    assert a[..] == m[at := a[at]];
    Memmove(a, at + 1, at + 3, n + 1);
    Replaced(m, a[..], at, s);
  }

  lemma SameOutsideTrans(m: seq<char>, m': seq<char>, m'': seq<char>, from: nat, to: nat, from': nat, to': nat)
    requires SameOutside(m, m', from, to) && SameOutside(m', m'', from', to') && from <= from' && to' <= to
    ensures SameOutside(m, m'', from, to)
  {
  }

  /** The body of the loop: one character of the result, and what is left to decode. */
  method DecodeNext(a: array<char>, at: nat, ghost s: string) returns (ghost rest: string)
    requires Holds(a[..], at, s) && Safe(s) && s != ""
    modifies a
    ensures rest == if Coded(s) then s[3..] else s[1..]
    ensures Holds(a[..], at + 1, rest) && Safe(rest)
    ensures a[at] == if Coded(s) then CodedChar(s) else s[0]
    ensures SameOutside(old(a[..]), a[..], at, at + |s|)
  {
    NulComesAfter(a, at, s);
    IsCoded(a, at, s);
    SafeTail(s, if Coded(s) then 3 else 1);
    if a[at] == '^' && IsHex(a[at + 1]) && IsHex(a[at + 2]) {
      ReplaceCode(a, at, s);
      rest := s[3..];
    } else {
      HoldsTail(a[..], at, s, 1);
      rest := s[1..];
    }
  }

  lemma DoneGrows(m: seq<char>, m': seq<char>, at: nat, chunk: nat, to: nat)
    requires at <= chunk < |m| && SameOutside(m, m', chunk, to)
    ensures m'[at..chunk + 1] == m[at..chunk] + [m'[chunk]]
  {
  }

  /** One round of the loop adds the next character of the result. */
  lemma DecodedOne(m: seq<char>, m': seq<char>, at: nat, chunk: nat, before: string, rest: string, to: nat)
    requires at <= chunk < |m| && SameOutside(m, m', chunk, to) && before != ""
    requires m'[chunk] == if Coded(before) then CodedChar(before) else before[0]
    requires rest == if Coded(before) then before[3..] else before[1..]
    ensures m'[at..chunk + 1] + Decode(rest) == m[at..chunk] + Decode(before)
  {
    DoneGrows(m, m', at, chunk, to);
    DecodeStep(m[at..chunk], before);
  }

  /** Decodes the string at a position in place; nothing behind its end is touched. */
  method DecodeChunk(a: array<char>, at: nat, ghost s: string)
    requires Holds(a[..], at, s) && Safe(s)
    modifies a
    ensures at + |Decode(s)| <= at + |s| < a.Length
    ensures a[..][at..at + |Decode(s)|] == Decode(s) && a[at + |Decode(s)|] == NUL
    ensures SameOutside(old(a[..]), a[..], at, at + |s|)
  {
    var chunk := at;
    ghost var rest := s;
    while a[chunk] != NUL
      invariant at <= chunk && chunk + |rest| <= at + |s| && Holds(a[..], chunk, rest) && Safe(rest)
      invariant a[..][at..chunk] + Decode(rest) == Decode(s)
      invariant SameOutside(old(a[..]), a[..], at, at + |s|)
      decreases |rest|
    {
      ghost var m, before := a[..], rest;
      EndsAtNul(a, chunk, rest);
      rest := DecodeNext(a, chunk, rest);
      DecodedOne(m, a[..], at, chunk, before, rest, chunk + |before|);
      SameOutsideTrans(old(a[..]), m, a[..], at, at + |s|, chunk, chunk + |before|);
      chunk := chunk + 1;
    }
    EndsAtNul(a, chunk, rest);
  }

  lemma EndsAtNul(a: array<char>, at: nat, s: string)
    requires Holds(a[..], at, s)
    ensures at < a.Length && (a[at] == NUL <==> s == "")
  {
    NulComesAfter(a, at, s);
    assert a[..][at + |s|] == NUL;
  }

  lemma DecodeStep(done: string, rest: string)
    requires rest != ""
    ensures done + Decode(rest)
         == if Coded(rest) then (done + [CodedChar(rest)]) + Decode(rest[3..])
            else (done + [rest[0]]) + Decode(rest[1..])
  {
    if Coded(rest) {
      Assoc(done, [CodedChar(rest)], Decode(rest[3..]));
    } else {
      Assoc(done, [rest[0]], Decode(rest[1..]));
    }
  }

  /** The test of the source reads the string at hand only. */
  lemma IsCoded(a: array<char>, at: nat, s: string)
    requires Holds(a[..], at, s) && Safe(s) && at < a.Length && a[at] != NUL
    ensures s != "" && a[at] == s[0]
    ensures a[at] == '^' ==> at + 1 < a.Length && (IsHex(a[at + 1]) ==> at + 2 < a.Length)
    ensures (at + 2 < a.Length && a[at] == '^' && IsHex(a[at + 1]) && IsHex(a[at + 2])) <==> Coded(s)
  {
    var m := a[..];
    assert m[at + |s|] == NUL;
    assert s != "" && m[at + 0] == s[0];
    if |s| > 1 {
      assert m[at + 1] == s[1];
    }
    if |s| > 2 {
      assert m[at + 2] == s[2];
    }
  }

  // ---------- a column ----------

  /** The pieces between the semicolons. */
  function Split(s: string): (ps: seq<string>)
    ensures ps != []
  {
    if s == "" then [""]
    else
      var ps := Split(s[1..]);
      if s[0] == ';' then [""] + ps else [[s[0]] + ps[0]] + ps[1..]
  }

  function Decoded(ps: seq<string>): (vs: seq<string>)
    ensures |vs| == |ps|
  {
    if ps == [] then [] else [CString(Decode(ps[0]))] + Decoded(ps[1..])
  }

  /** The values of a column; a column without a value gives an empty one, and an empty
      column a blank. */
  function Values(column: Option<string>): seq<string> {
    match column
    case None => [""]
    case Some(s) => Decoded(Split(if s == "" then " " else s))
  }

  /** The string before the first NUL, copied. */
  method Copy(a: array<char>, at: nat, ghost s: string) returns (copy: string)
    requires at + |s| < a.Length && a[..][at..at + |s|] == s && a[at + |s|] == NUL
    ensures copy == CString(s)
  {
    copy := "";
    var i := at;
    while a[i] != NUL
      invariant at <= i <= at + |s|
      invariant copy + CString(s[i - at..]) == CString(s)
      decreases at + |s| - i
    {
      ghost var rest := s[i - at..];
      assert a[i] == a[..][at..at + |s|][i - at] == rest[0] && rest[1..] == s[i + 1 - at..];
      Assoc(copy, [a[i]], CString(rest[1..]));
      copy := copy + [a[i]];
      i := i + 1;
    }
    assert i < at + |s| ==> s[i - at] == a[..][at..at + |s|][i - at] == a[i];
  }

  lemma {:induction false} SplitAtFirst(s: string, n: nat)
    requires n <= |s| && (forall i :: 0 <= i < n ==> s[i] != ';') && (n < |s| ==> s[n] == ';')
    ensures Split(s) == [s[..n]] + if n < |s| then Split(s[n + 1..]) else []
  {
    if n > 0 {
      SplitAtFirst(s[1..], n - 1);
      assert s[1..][..n - 1] == s[1..n] && [s[0]] + s[1..n] == s[..n];
      assert n < |s| ==> s[1..][n..] == s[n + 1..];
    }
  }

  /** Where a NUL replaces the semicolon, two strings are left. */
  lemma CutPiece(m: seq<char>, at: nat, s: string, n: nat)
    requires Holds(m, at, s) && n < |s|
    ensures Holds(m[at + n := NUL], at, s[..n]) && Holds(m[at + n := NUL], at + n + 1, s[n + 1..])
  {
    HoldsTail(m, at, s, n + 1);
    var m' := m[at + n := NUL];
    forall i | 0 <= i < n ensures m'[at + i] == s[..n][i] {
      assert m[at + i] == s[i];
    }
    HoldsBehind(m, m', at + n + 1, s[n + 1..], at + n, at + n + 1);
  }

  /** The loop that looks for the end of a piece. */
  method FindEnd(a: array<char>, at: nat, ghost s: string) returns (i: nat)
    requires Holds(a[..], at, s)
    ensures at <= i <= at + |s| && i < a.Length
    ensures (forall j :: 0 <= j < i - at ==> s[j] != ';') && (i < at + |s| <==> a[i] == ';')
    ensures i < at + |s| ==> s[i - at] == ';'
  {
    i := at;
    EndsAtNul(a, at, s);
    while a[i] != NUL && a[i] != ';'
      invariant at <= i <= at + |s| && i < a.Length
      invariant forall j :: 0 <= j < i - at ==> s[j] != ';'
      decreases at + |s| - i
    {
      CharOf(a, at, s, i);
      i := i + 1;
    }
    CharOf(a, at, s, i);
  }

  lemma CharOf(a: array<char>, at: nat, s: string, i: nat)
    requires Holds(a[..], at, s) && at <= i <= at + |s|
    ensures i < a.Length && (if i < at + |s| then a[i] == s[i - at] != NUL else a[i] == NUL)
  {
    var m := a[..];
    assert i < at + |s| ==> m[at + (i - at)] == s[i - at];
    assert m[at + |s|] == NUL;
  }

  /** Ends the piece that begins at a position, and tells where the next one begins. */
  method StrSep(a: array<char>, at: nat, ghost s: string) returns (next: Option<nat>, ghost n: nat)
    requires Holds(a[..], at, s)
    modifies a
    ensures n <= |s| && Holds(a[..], at, s[..n]) && Split(s)[0] == s[..n]
    ensures if next.None? then n == |s| && Split(s)[1..] == []
            else n < |s| && next.value == at + n + 1 && Holds(a[..], next.value, s[n + 1..])
                 && Split(s)[1..] == Split(s[n + 1..])
  {
    var i := FindEnd(a, at, s);
    n := i - at;
    SplitAtFirst(s, n);
    if a[i] == ';' {
      CutPiece(a[..], at, s, n);
      a[i] := NUL;
      next := Some(i + 1);
    } else {
      next := None;
      assert s[..n] == s;
    }
  }

  predicate AllSafe(ps: seq<string>) {
    forall i :: 0 <= i < |ps| ==> Safe(ps[i])
  }

  lemma DecodedStep(ps: seq<string>, v: string)
    requires ps != [] && v == CString(Decode(ps[0]))
    ensures Decoded(ps) == [v] + Decoded(ps[1..])
  {
  }

  /** Decodes the piece and copies its value; what comes behind the piece stays. */
  method Value(a: array<char>, at: nat, ghost s: string) returns (v: string)
    requires Holds(a[..], at, s) && Safe(s)
    modifies a
    ensures v == CString(Decode(s))
    ensures SameOutside(old(a[..]), a[..], at, at + |s|)
  {
    DecodeChunk(a, at, s);
    v := Copy(a, at, Decode(s));
  }

  lemma HoldsBehind(m: seq<char>, m': seq<char>, at: nat, s: string, from: nat, to: nat)
    requires Holds(m, at, s) && SameOutside(m, m', from, to) && to <= at
    ensures Holds(m', at, s)
  {
    forall i | 0 <= i < |s| ensures m'[at + i] == s[i] {
      assert m[at + i] == s[i];
    }
  }

  /** The body of the loop: a piece is cut off, decoded and copied. */
  method NextPiece(a: array<char>, at: nat, ghost s: string) returns (v: string, next: Option<nat>, ghost rest: string)
    requires Holds(a[..], at, s) && AllSafe(Split(s))
    modifies a
    ensures next.None? ==> Decoded(Split(s)) == [v]
    ensures next.Some? ==> |rest| < |s| && Holds(a[..], next.value, rest) && AllSafe(Split(rest))
    ensures next.Some? ==> Decoded(Split(s)) == [v] + Decoded(Split(rest))
  {
    ghost var ps := Split(s);
    ghost var n: nat;
    next, n := StrSep(a, at, s);
    ghost var m := a[..];
    assert Safe(ps[0]);
    v := Value(a, at, s[..n]);
    DecodedStep(ps, v);
    rest := if next.Some? then s[n + 1..] else "";
    if next.Some? {
      HoldsBehind(m, a[..], next.value, rest, at, at + n);
      TailIsSafe(ps);
    }
  }

  lemma TailIsSafe(ps: seq<string>)
    requires ps != [] && AllSafe(ps)
    ensures AllSafe(ps[1..])
  {
  }

  /** The loop over the pieces of a column. */
  method ReadPieces(a: array<char>, ghost s: string) returns (values: seq<string>)
    requires Holds(a[..], 0, s) && AllSafe(Split(s))
    modifies a
    ensures values == Decoded(Split(s))
  {
    values := [];
    ghost var rest := s;
    var stringp: Option<nat> := Some(0);
    while stringp.Some?
      invariant stringp.Some? ==> Holds(a[..], stringp.value, rest) && AllSafe(Split(rest))
      invariant Decoded(Split(s)) == values + if stringp.Some? then Decoded(Split(rest)) else []
      decreases if stringp.Some? then |rest| + 1 else 0
    {
      ghost var all, before := Decoded(Split(rest)), values;
      var v: string;
      v, stringp, rest := NextPiece(a, stringp.value, rest);
      values := values + [v];
      if stringp.Some? {
        Assoc(before, [v], Decoded(Split(rest)));
      }
    }
  }

  lemma SplitBlank()
    ensures Split(" ") == [" "] && Safe(" ")
  {
    SplitAtFirst(" ", 1);
    assert " "[..1] == " ";
  }

  /** Reads a column, whose string the source changes in place. */
  method ReadColumn(row: array?<char>, ghost s: string) returns (values: seq<string>)
    requires row != null ==> Holds(row[..], 0, s) && AllSafe(Split(s))
    modifies row
    ensures values == Values(if row == null then None else Some(s))
  {
    if row == null {
      return [""];
    }
    assert row[..][|s|] == NUL && (s != "" ==> row[..][0 + 0] == s[0]);
    if row[0] == NUL {
      var blank := new char[] [' ', NUL];
      assert blank[..] == [' ', NUL];
      SplitBlank();
      values := ReadPieces(blank, " ");
    } else {
      values := ReadPieces(row, s);
    }
  }

  // ---------- the round trip ----------

  /** The escaped form has no semicolon and is at most three times as long. */
  lemma {:induction false} EscapedForm(s: string)
    ensures forall i :: 0 <= i < |Escape(s)| ==> Escape(s)[i] != ';'
    ensures |s| <= |Escape(s)| <= 3 * |s|
    ensures NoNul(s) ==> NoNul(Escape(s))
  {
    if s != "" {
      EscapedForm(s[..|s| - 1]);
    }
  }

  lemma DecodeChar(c: char, t: string)
    ensures Decode(EscapeChar(c) + t) == [c] + Decode(t)
  {
    var e := EscapeChar(c) + t;
    if c == ';' || c == '^' {
      assert e[0] == '^' && e[1] == EscapeChar(c)[1] && e[2] == EscapeChar(c)[2] && e[3..] == t;
      assert CodedChar(e) == c;
    } else {
      assert e[0] == c && e[1..] == t;
    }
  }

  lemma {:induction false} DecodeEscaped(s: string, t: string)
    ensures Decode(Escape(s) + t) == s + Decode(t)
    decreases |s|
  {
    if s == "" {
      assert Escape(s) + t == t;
    } else {
      var front, c := s[..|s| - 1], s[|s| - 1];
      DecodeEscaped(front, EscapeChar(c) + t);
      DecodeChar(c, t);
      Assoc(Escape(front), EscapeChar(c), t);
      Assoc(front, [c], Decode(t));
      assert s == front + [c];
    }
  }

  /** Decoding restores every escaped string. */
  lemma EscapeRoundTrip(s: string)
    ensures Decode(Escape(s)) == s
  {
    DecodeEscaped(s, "");
    assert Escape(s) + "" == Escape(s) && s + "" == s;
  }

  lemma SafeAppend(s: string, c: char)
    requires Safe(s)
    ensures Safe(s + EscapeChar(c))
  {
    var e := s + EscapeChar(c);
    forall i | 0 <= i < |e| && e[i] == '^' ensures i + 1 < |e| && (IsHex(e[i + 1]) ==> i + 2 < |e|) {
      if i < |s| {
        assert s[i] == '^' && e[i + 1] == s[i + 1];
      } else {
        assert EscapeChar(c)[i - |s|] == '^';
      }
    }
  }

  /** Decoding an escaped string never looks behind its end. */
  lemma {:induction false} EscapedIsSafe(s: string)
    ensures Safe(Escape(s))
  {
    if s != "" {
      EscapedIsSafe(s[..|s| - 1]);
      SafeAppend(Escape(s[..|s| - 1]), s[|s| - 1]);
    }
  }

  lemma {:induction false} NoNulIsWhole(s: string)
    requires NoNul(s)
    ensures CString(s) == s
  {
    if s != "" {
      NoNulIsWhole(s[1..]);
    }
  }

  /** Strings joined with semicolons. */
  function Join(ps: seq<string>): string {
    if ps == [] then "" else if |ps| == 1 then ps[0] else ps[0] + ";" + Join(ps[1..])
  }

  function Escaped(vs: seq<string>): (ps: seq<string>)
    ensures |ps| == |vs|
  {
    if vs == [] then [] else [Escape(vs[0])] + Escaped(vs[1..])
  }

  predicate AllNoNul(vs: seq<string>) {
    forall i :: 0 <= i < |vs| ==> NoNul(vs[i])
  }

  lemma {:induction false} SplitJoined(vs: seq<string>)
    requires vs != []
    ensures Split(Join(Escaped(vs))) == Escaped(vs)
  {
    var e := Escape(vs[0]);
    var j := Join(Escaped(vs));
    EscapedForm(vs[0]);
    assert Escaped(vs)[1..] == Escaped(vs[1..]);
    if |vs| == 1 {
      SplitAtFirst(e, |e|);
      assert e[..|e|] == e;
    } else {
      SplitJoined(vs[1..]);
      assert j == e + ";" + Join(Escaped(vs[1..]));
      SplitAtFirst(j, |e|);
      assert j[..|e|] == e && j[|e| + 1..] == Join(Escaped(vs[1..]));
    }
  }

  lemma ValueRead(v: string)
    requires NoNul(v)
    ensures CString(Decode(Escape(v))) == v && Safe(Escape(v))
  {
    EscapeRoundTrip(v);
    EscapedIsSafe(v);
    NoNulIsWhole(v);
  }

  lemma {:induction false} EscapedAt(vs: seq<string>, i: nat)
    requires i < |vs|
    ensures Escaped(vs)[i] == Escape(vs[i])
  {
    if i > 0 {
      EscapedAt(vs[1..], i - 1);
    }
  }

  lemma DecodedEscaped(vs: seq<string>)
    requires AllNoNul(vs)
    ensures Decoded(Escaped(vs)) == vs && AllSafe(Escaped(vs))
  {
    var ps := Escaped(vs);
    forall i | 0 <= i < |ps| ensures ps[i] == Escape(vs[i]) && CString(Decode(ps[i])) == vs[i] && Safe(ps[i]) {
      EscapedAt(vs, i);
      ValueRead(vs[i]);
    }
    DecodedIs(ps, vs);
  }

  lemma {:induction false} DecodedIs(ps: seq<string>, vs: seq<string>)
    requires |ps| == |vs| && forall i :: 0 <= i < |ps| ==> CString(Decode(ps[i])) == vs[i]
    ensures Decoded(ps) == vs
  {
    if ps != [] {
      DecodedIs(ps[1..], vs[1..]);
    }
  }

  /** The digits that a code may have, in the order of their values. */
  lemma HexDigits(c: char)
    ensures IsHex(c) <==> c in "0123456789ABCDEFabcdef"
    ensures forall i :: 0 <= i < 16 ==> IsHex("0123456789ABCDEF"[i]) && HexValue("0123456789ABCDEF"[i]) == i
    ensures forall i :: 0 <= i < 6 ==> IsHex("abcdef"[i]) && HexValue("abcdef"[i]) == 10 + i
  {
    if IsHex(c) {
      HexIsListed(c);
    }
  }

  lemma HexIsListed(c: char)
    requires IsHex(c)
    ensures c in "0123456789ABCDEFabcdef"
  {
    var digits := "0123456789ABCDEFabcdef";
    if '0' <= c <= '9' {
      assert digits[c as int - '0' as int] == c;
    } else if 'A' <= c <= 'F' {
      assert digits[c as int - 'A' as int + 10] == c;
    } else {
      assert digits[c as int - 'a' as int + 16] == c;
    }
  }

  lemma CodeDecoded(c: char, d: char, s: string)
    requires IsHex(c) && IsHex(d)
    ensures Decode(['^', c, d] + s) == [(16 * HexValue(c) + HexValue(d)) as char] + Decode(s)
  {
    assert (['^', c, d] + s)[3..] == s;
  }

  /** A caret with two of these digits stands for the character of that number. */
  lemma CodeIsDecoded(h: nat, l: nat, s: string)
    requires h < 16 && l < 16
    ensures Decode(['^', "0123456789ABCDEF"[h], "0123456789ABCDEF"[l]] + s) == [(16 * h + l) as char] + Decode(s)
  {
    var c, d := "0123456789ABCDEF"[h], "0123456789ABCDEF"[l];
    HexDigits(c);
    CodeDecoded(c, d, s);
  }

  /** A caret without them, and every other character, stands for itself. */
  lemma OthersStay(s: string)
    requires s != ""
    requires s[0] == '^' ==>
               |s| > 2 && (s[1] !in "0123456789ABCDEFabcdef" || s[2] !in "0123456789ABCDEFabcdef")
    ensures Decode(s) == [s[0]] + Decode(s[1..])
  {
    if s[0] == '^' {
      HexDigits(s[1]);
      HexDigits(s[2]);
    }
  }

  /** The two characters that are written as codes. */
  lemma CodesWritten(c: char)
    ensures Escape([c]) == if c == ';' then "^3B" else if c == '^' then "^5E" else [c]
  {
    assert [c][..0] == "" && "" + EscapeChar(c) == EscapeChar(c);
  }

  /** A column without a value gives one empty value, and an empty column a blank. */
  lemma BlanksRead(empty: string)
    requires empty == ""
    ensures Values(None) == [""] && Values(Some(empty)) == [" "]
  {
    SplitBlank();
    NoNulIsWhole(" ");
    BlankDecoded(" ");
    DecodedIs([" "], [" "]);
  }

  lemma BlankDecoded(s: string)
    requires s == " "
    ensures Decode(s) == " "
  {
    OthersStay(s);
    assert s[1..] == "";
  }

  /** A list of values that is escaped, joined and stored reads back as itself, except for the
      empty list and the list of one empty value: both are stored as the empty column, which
      reads back as a blank. */
  lemma ColumnRoundTrip(vs: seq<string>)
    requires AllNoNul(vs)
    ensures Values(Some(Join(Escaped(vs)))) == vs <==> vs != [] && vs != [""]
  {
    var j := Join(Escaped(vs));
    if vs == [] || vs == [""] {
      assert j == "";
      SplitBlank();
      assert Values(Some(j))[0] == CString(Decode(" "));
      NoNulIsWhole(" ");
    } else {
      SplitJoined(vs);
      DecodedEscaped(vs);
      EscapedForm(vs[0]);
      assert |vs| == 1 ==> vs[0] != "";
      assert j != "";
    }
  }

  lemma {:induction false} JoinedHasNoNul(vs: seq<string>)
    requires AllNoNul(vs)
    ensures NoNul(Join(Escaped(vs)))
  {
    if vs != [] {
      EscapedForm(vs[0]);
      assert AllNoNul(vs[1..]);
      JoinedHasNoNul(vs[1..]);
      assert Escaped(vs)[1..] == Escaped(vs[1..]);
    }
  }

  /** Writing a list and reading the column in place. */
  method WriteAndRead(vs: seq<string>) returns (back: seq<string>)
    requires AllNoNul(vs)
    ensures back == vs <==> vs != [] && vs != [""]
  {
    var s := "";
    for i := 0 to |vs|
      invariant s == Join(Escaped(vs[..i]))
    {
      var e := EscapeString(vs[i]);
      JoinedUpTo(vs, i);
      s := if i == 0 then e else s + ";" + e;
    }
    assert vs[..|vs|] == vs;
    JoinedHasNoNul(vs);
    var row := new char[|s| + 1](i requires 0 <= i < |s| + 1 => if i < |s| then s[i] else NUL);
    StoredIsSafe(vs);
    back := ReadColumn(row, s);
    ColumnRoundTrip(vs);
  }

  lemma JoinStep(p: seq<string>)
    requires |p| > 1
    ensures Join(p) == p[0] + ";" + Join(p[1..])
  {
  }

  lemma Regroup(a: string, b: string, c: string, d: string, e: string)
    ensures a + b + (c + d + e) == (a + b + c) + d + e
  {
  }

  lemma EscapedPush(vs: seq<string>, v: string)
    requires vs != []
    ensures Escaped(vs + [v]) == [Escape(vs[0])] + Escaped(vs[1..] + [v])
  {
    assert (vs + [v])[1..] == vs[1..] + [v];
  }

  lemma {:induction false} JoinedPush(vs: seq<string>, v: string)
    ensures Join(Escaped(vs + [v])) == if vs == [] then Escape(v) else Join(Escaped(vs)) + ";" + Escape(v)
  {
    if vs == [] {
      assert vs + [v] == [v];
    } else {
      var e := Escape(vs[0]);
      EscapedPush(vs, v);
      JoinStep([e] + Escaped(vs[1..] + [v]));
      JoinedPush(vs[1..], v);
      if |vs| > 1 {
        JoinStep([e] + Escaped(vs[1..]));
        Regroup(e, ";", Join(Escaped(vs[1..])), ";", Escape(v));
      }
    }
  }

  lemma JoinedUpTo(vs: seq<string>, i: nat)
    requires i < |vs|
    ensures Join(Escaped(vs[..i + 1]))
         == if i == 0 then Escape(vs[i]) else Join(Escaped(vs[..i])) + ";" + Escape(vs[i])
  {
    assert vs[..i + 1] == vs[..i] + [vs[i]];
    JoinedPush(vs[..i], vs[i]);
  }

  lemma StoredIsSafe(vs: seq<string>)
    requires AllNoNul(vs)
    ensures AllSafe(Split(Join(Escaped(vs))))
  {
    if vs != [] {
      SplitJoined(vs);
      DecodedEscaped(vs);
    }
  }
}
