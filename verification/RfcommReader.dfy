/**
 The character-at-a-time readers of the serial link.  They share a buffer that keeps the
 first characters put out and drops what does not fit.
 */
module RfcommReader {
  import opened RfcommStream

  /** A character comparison of OKS stops at the first difference. */
  lemma MatchedIs(s: string, k: nat)
    requires k <= |OKS| && k <= |s| && forall i :: 0 <= i < k ==> s[i] == OKS[i]
    requires k < |OKS| && k < |s| ==> s[k] != OKS[k]
    ensures Matched(s, 0) == k
  {
    SamePrefix(s, OKS, Matched(s, 0));
  }

  lemma SamePrefix(s: string, t: string, m: nat)
    requires m <= |s| && m <= |t| && s[..m] == t[..m]
    ensures forall i :: 0 <= i < m ==> s[i] == t[i]
  {
    assert forall i :: 0 <= i < m ==> s[..m][i] == t[..m][i];
  }

  lemma CrlfChar(done: string, rest: string, end: End)
    requires rest != "" && rest[0] != CR
    ensures Then(done, UntilCrlf(rest, end)) == Then(done + [rest[0]], UntilCrlf(rest[1..], end))
  {
    ThenThen(done, [rest[0]], UntilCrlf(rest[1..], end));
  }

  lemma CrlfPair(done: string, rest: string, end: End)
    requires |rest| >= 2 && rest[0] == CR && rest[1] != LF
    ensures Then(done, UntilCrlf(rest, end)) == Then(done + [CR] + [rest[1]], UntilCrlf(rest[1..][1..], end))
  {
    assert rest[1..][1..] == rest[2..];
    assert done + [CR] + [rest[1]] == done + [CR, rest[1]];
    ThenThen(done, [CR, rest[1]], UntilCrlf(rest[2..], end));
  }

  lemma CrlfStop(done: string, rest: string, end: End)
    requires rest == "" || (rest[0] == CR && (|rest| == 1 || rest[1] == LF))
    ensures Then(done, UntilCrlf(rest, end)) ==
              if rest == "" then Scan(end, done, "")
              else if |rest| == 1 then Scan(end, done + [CR], "") else Scan(1, done, rest[1..][1..])
  {
    assert rest != "" && |rest| > 1 ==> rest[1..][1..] == rest[2..];
  }

  lemma OkLine(done: string, rest: string, end: End)
    requires UntilCrlf(rest, end).res == 1
    ensures var line := UntilCrlf(rest, end);
            Then(done, UntilOk(rest, end)) == Then(done + line.out + [CR] + [LF], LineStart(line.rest, end))
  {
    var line := UntilCrlf(rest, end);
    assert done + line.out + [CR] + [LF] == done + (line.out + CRLF);
    ThenThen(done, line.out + CRLF, LineStart(line.rest, end));
  }

  lemma OkFallback(done: string, s: string, end: End)
    requires Matched(s, 0) < |OKS| && Matched(s, 0) < |s|
    ensures var m := Matched(s, 0);
            Then(done, LineStart(s, end)) == Then(done + s[..m + 1], UntilOk(s[m + 1..], end))
  {
    var m := Matched(s, 0);
    ThenThen(done, s[..m + 1], UntilOk(s[m + 1..], end));
  }

  class Reader {
    const input: string
    const end: End
    const count: nat
    var pos: nat
    var buf: string
    ghost var out: string

    ghost predicate Valid()
      reads this
    {
      pos <= |input| && buf == Fit(out, count)
    }

    ghost function Rest(): string
      reads this
      requires Valid()
    {
      input[pos..]
    }

    /** This reader consumed and put out what the scan of the characters before it says. */
    twostate predicate Did(r: Scan)
      reads this
    {
      old(Valid()) && Valid() && Rest() == r.rest && out == old(out) + r.out
    }

    constructor (input: string, end: End, count: nat)
      ensures Valid() && Rest() == input && out == "" && this.end == end && this.count == count
    {
      this.input, this.end, this.count := input, end, count;
      pos, buf, out := 0, "", "";
    }

    method Read() returns (res: int, c: char)
      requires Valid()
      modifies this`pos
      ensures Valid()
      ensures old(Rest()) == "" ==> res == end && Rest() == ""
      ensures old(Rest()) != "" ==> res == 1 && c == old(Rest())[0] && Rest() == old(Rest())[1..]
    {
      if pos < |input| {
        res, c, pos := 1, input[pos], pos + 1;
      } else {
        res, c := end, ' ';
      }
    }

    method AppendBuf(c: char)
      requires Valid()
      modifies this`buf, this`out
      ensures Valid() && out == old(out) + [c]
    {
      if |buf| < count {
        buf := buf + [c];
      }
      out := out + [c];
    }

    method ReadAndExpectChar(expected: char) returns (res: int, c: char)
      requires Valid()
      modifies this`pos
      ensures Valid()
      ensures old(Rest()) == "" ==> res == end && Rest() == ""
      ensures old(Rest()) != "" ==> c == old(Rest())[0] && Rest() == old(Rest())[1..]
      ensures old(Rest()) != "" ==> res == if c == expected then 1 else MISMATCH
    {
      res, c := Read();
      if res == 1 && c != expected {
        res := MISMATCH;
      }
    }

    method ReadUntilCrlf() returns (res: int)
      requires Valid()
      modifies this
      ensures var r := UntilCrlf(old(Rest()), end); res == r.res && Did(r)
    {
      while true
        invariant Valid()
        invariant Then(old(out), UntilCrlf(old(Rest()), end)) == Then(out, UntilCrlf(Rest(), end))
        decreases |Rest()|
      {
        ghost var done, rest := out, Rest();
        var c;
        res, c := Read();
        if res != 1 {
          CrlfStop(done, rest, end);
          return;
        }
        if c == CR {
          res, c := ReadAndExpectChar(LF);
          if res == 1 {
            CrlfStop(done, rest, end);
            return;
          }
          AppendBuf(CR);
          if res != MISMATCH {
            CrlfStop(done, rest, end);
            return;
          }
          CrlfPair(done, rest, end);
        } else {
          CrlfChar(done, rest, end);
        }
        AppendBuf(c);
      }
    }

    /** Puts back what a partial match of OKS has taken. */
    method AppendPartial(k: nat, c: char)
      requires Valid() && k <= |OKS|
      modifies this`buf, this`out
      ensures Valid() && out == old(out) + (OKS[..k] + [c])
    {
      var j := 0;
      while j < k
        invariant 0 <= j <= k && Valid() && out == old(out) + OKS[..j]
      {
        AppendBuf(OKS[j]);
        j := j + 1;
      }
      AppendBuf(c);
    }

    /** At the start of a line, reads OKS character by character.  When a character differs,
        all that was read is put out. */
    method ReadOk() returns (res: int)
      requires Valid()
      modifies this
      ensures var s := old(Rest()); var m := Matched(s, 0);
              if m == |OKS| then res == 1 && Did(Scan(1, "", s[m..]))
              else if m == |s| then res == end && Did(Scan(end, "", ""))
              else res == MISMATCH && Did(Scan(MISMATCH, s[..m + 1], s[m + 1..]))
    {
      ghost var s := Rest();
      var k, c := 0, ' ';
      while k < |OKS|
        invariant 0 <= k <= |OKS| && k <= |s| && forall i :: 0 <= i < k ==> s[i] == OKS[i]
        invariant Valid() && Rest() == s[k..] && out == old(out)
      {
        res, c := ReadAndExpectChar(OKS[k]);
        if res != 1 {
          MatchedIs(s, k);
          if res == MISMATCH {
            assert s[..k + 1] == OKS[..k] + [c];
            AppendPartial(k, c);
          }
          return;
        }
        k := k + 1;
      }
      MatchedIs(s, k);
      res := 1;
    }

    method ReadUntilOk() returns (res: int)
      requires Valid()
      modifies this
      ensures var r := UntilOk(old(Rest()), end); res == r.res && Did(r)
    {
      while true
        invariant Valid()
        invariant Then(old(out), UntilOk(old(Rest()), end)) == Then(out, UntilOk(Rest(), end))
        decreases |Rest()|
      {
        ghost var done, rest := out, Rest();
        res := ReadUntilCrlf();
        if res != 1 {
          return;
        }
        assert |Rest()| < |rest|;
        AppendBuf(CR);
        AppendBuf(LF);
        OkLine(done, rest, end);
        ghost var line, s := out, Rest();
        res := ReadOk();
        if res != MISMATCH {
          return;
        }
        OkFallback(line, s, end);
      }
    }

    method ReadSmsPrompt() returns (res: int)
      requires Valid()
      modifies this
      ensures var s := old(Rest());
              if s == "" then res == end && Did(Scan(end, "", ""))
              else if s[0] == ' ' then res == 1 && Did(Scan(1, " ", s[1..]))
              else res == MISMATCH && Did(Scan(MISMATCH, "", s[1..]))
    {
      var c;
      res, c := ReadAndExpectChar(' ');
      if res == 1 {
        AppendBuf(c);
      }
    }

    /** Reads the line of a result code, whose first character is c. */
    method ReadResultLine(c: char) returns (res: int)
      requires Valid() && out == ""
      modifies this
      ensures var r := ResultLine([c] + old(Rest()), count, end); res == r.res && Did(r)
    {
      ghost var s := [c] + Rest();
      assert s[1..] == Rest();
      AppendBuf(c);
      res := ReadUntilCrlf();
      if res != 1 {
        return;
      }
      ghost var line := out;
      assert line == [c] + UntilCrlf(s[1..], end).out;
      assert |buf| >= 5 && CMGR <= buf <==> count >= |CMGR| && CMGR <= line;
      if |buf| >= 5 && CMGR <= buf {
        AppendBuf(CR);
        AppendBuf(LF);
        assert out == line + CRLF;
        res := ReadUntilOk();
      }
    }

    method ReadResult() returns (res: int)
      requires Valid() && out == ""
      modifies this
      ensures var r := ResultCode(old(Rest()), count, end); res == r.res && Did(r)
    {
      var c;
      res, c := ReadAndExpectChar(LF);
      if res < 1 {
        return;
      }
      res, c := ReadAndExpectChar('>');
      if res == 1 {
        AppendBuf(c);
        res := ReadSmsPrompt();
        return;
      }
      if res != MISMATCH {
        return;
      }
      assert [c] + Rest() == old(Rest())[1..];
      res := ReadResultLine(c);
    }

    method ReadCommand() returns (res: int)
      requires Valid()
      modifies this
      ensures var r := UntilCr(old(Rest()), end); res == r.res && Did(r)
    {
      while true
        invariant Valid()
        invariant Then(old(out), UntilCr(old(Rest()), end)) == Then(out, UntilCr(Rest(), end))
        decreases |Rest()|
      {
        ghost var done := out;
        var c;
        res, c := Read();
        if res != 1 || c == CR {
          return;
        }
        AppendBuf(c);
        ThenThen(done, [c], UntilCr(Rest(), end));
      }
    }

    /** One message.  The buffer holds as much of its text as fits. */
    method ReadMessage() returns (res: int)
      requires Valid()
      modifies this
      ensures var r := Message(old(Rest()), count, end);
              && Valid() && Rest() == r.rest
              && buf == Fit(r.out, count)
              && res == if r.res < 1 then r.res else |buf|
    {
      ghost var s := Rest();
      buf, out := "", "";
      var c;
      res, c := ReadAndExpectChar(CR);
      if res == 1 {
        res := ReadResult();
      } else if res == MISMATCH {
        AppendBuf(c);
        res := ReadCommand();
        assert out == [c] + UntilCr(s[1..], end).out;
      }
      assert out == Message(s, count, end).out;
      if res >= 1 {
        res := |buf|;
      }
    }
  }
}
