/** How a message ends when it is cut off or not well formed, and what the buffer keeps of it. */
module RfcommEdges {
  import opened RfcommStream

  /** The buffer holds the longest part of the text, from its start, that has room in it. */
  lemma BufferKeepsPrefix(out: string, count: nat)
    ensures Fit(out, count) <= out && |Fit(out, count)| == if |out| < count then |out| else count
  {
  }

  /** A CR inside of a line is text together with the character behind it, even when that is another
      CR: so CR CR LF does not end a line. */
  lemma {:induction false} CrIsText(text: string, c: char, rest: string, end: End)
    requires CR !in text && c != LF
    ensures UntilCrlf(text + (['\r', c] + rest), end) == Then(text + ['\r', c], UntilCrlf(rest, end))
  {
    var s := text + (['\r', c] + rest);
    if text == "" {
      assert s[0] == '\r' && s[1] == c && s[2..] == rest;
      assert text + ['\r', c] == ['\r', c];
    } else {
      assert s[0] == text[0] && s[1..] == text[1..] + (['\r', c] + rest);
      CrIsText(text[1..], c, rest, end);
      ThenThen([text[0]], text[1..] + ['\r', c], UntilCrlf(rest, end));
      assert [text[0]] + (text[1..] + ['\r', c]) == text + ['\r', c];
    }
  }

  lemma {:induction false} LineIsCut(text: string, end: End)
    requires CR !in text
    ensures UntilCrlf(text, end) == Scan(end, text, "")
    ensures UntilCrlf(text + "\r", end) == Scan(end, text + "\r", "")
  {
    if text == "" {
      assert text + "\r" == "\r";
    } else {
      assert (text + "\r")[1..] == text[1..] + "\r";
      LineIsCut(text[1..], end);
      assert [text[0]] + text[1..] == text && [text[0]] + (text[1..] + "\r") == text + "\r";
    }
  }

  lemma {:induction false} CommandIsCut(text: string, end: End)
    requires CR !in text
    ensures UntilCr(text, end) == Scan(end, text, "")
  {
    if text != "" {
      CommandIsCut(text[1..], end);
      assert [text[0]] + text[1..] == text;
    }
  }

  /** A message that the end of the input cuts off fails as the read does, with what was read. */
  lemma CutOff(text: string, count: nat, end: End)
    requires text != "" && CR !in text && text[0] != '>'
    ensures Message("", count, end) == Message("\r", count, end) == Message("\r\n", count, end) == Scan(end, "", "")
    ensures Message("\r\n>", count, end) == Scan(end, ">", "")
    ensures Message(text, count, end) == Scan(end, text, "")
    ensures Message("\r\n" + text, count, end) == Scan(end, text, "")
  {
    assert "\r"[1..] == "" && "\r\n"[1..] == "\n" && "\r\n>"[1..] == "\n>";
    CommandIsCut(text[1..], end);
    LineIsCut(text[1..], end);
    assert [text[0]] + text[1..] == text;
    AfterCrlf(text, count, end);
  }

  /** A character that is not expected ends the message with -2 and is not put out: no LF behind the
      first CR, or no blank behind the >. */
  lemma NotWellFormed(c: char, rest: string, count: nat, end: End)
    ensures c != '\n' ==> Message("\r" + [c] + rest, count, end) == Scan(-2, "", rest)
    ensures c != ' ' ==> Message("\r\n>" + [c] + rest, count, end) == Scan(-2, ">", rest)
  {
    var s, t := "\r" + [c] + rest, "\r\n>" + [c] + rest;
    assert s[1..][0] == c && s[1..][1..] == rest;
    assert t[1..][0] == '\n' && t[1..][1] == '>' && t[1..][2] == c && t[1..][3..] == rest;
  }

  /** A line that begins with +CMGR is a text message only when the buffer has room for these five
      characters; else the message ends with its first line. */
  lemma SmallBuffer(text: string, rest: string, count: nat, end: End)
    requires CR !in text && count < 5
    ensures Message("\r\n" + "+CMGR" + text + "\r\n" + rest, count, end) == Scan(1, "+CMGR" + text, rest)
  {
    var line := "+CMGR" + text;
    assert "\r\n" + "+CMGR" + text + "\r\n" + rest == CRLF + (line + CRLF + rest);
    AfterCrlf(line + CRLF + rest, count, end);
    ResultLineRead(line, rest, end);
  }

  /** With the room it is one, and is read to its OK. */
  lemma LargeBuffer(text: string, rest: string, count: nat, end: End)
    requires CR !in text && count >= 5
    ensures Message("\r\n" + "+CMGR" + text + "\r\n" + rest, count, end)
         == Then("+CMGR" + text + "\r\n", UntilOk(rest, end))
  {
    var line := "+CMGR" + text;
    assert "\r\n" + "+CMGR" + text + "\r\n" + rest == CRLF + (line + CRLF + rest);
    AfterCrlf(line + CRLF + rest, count, end);
    ResultLineRead(line, rest, end);
    assert CMGR <= line;
  }

  /** What the messages look like, character by character. */
  lemma PrintedForms(text: string, line: string)
    ensures Print(Result(text)) == "\r\n" + text + "\r\n" && Text(Result(text)) == text
    ensures Print(Command(text)) == text + "\r" && Text(Command(text)) == text
    ensures Print(Prompt) == "\r\n> " && Text(Prompt) == "> "
    ensures Print(TextMessage(text, [line])) == "\r\n" + text + "\r\n" + (line + "\r\n") + "\r\nOK\r\n"
    ensures Text(TextMessage(text, [line])) == text + "\r\n" + (line + "\r\n")
  {
    OneLine(line);
  }
}
