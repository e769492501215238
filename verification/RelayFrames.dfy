/**
 IAX2 framing as the relay server reads it: frame headers (section 8.1 of RFC 5456) and
 information elements (section 8.6).
 */
module RelayFrames {
  import opened Basics

  datatype Ip = Ip(a: Byte, b: Byte, c: Byte, d: Byte)

  datatype Addr = Addr(ip: Ip, hi: Byte, lo: Byte)

  const NO_ADDR := Addr(Ip(0, 0, 0, 0), 0, 0)

  /** The 16 bytes of a sockaddr_in. */
  function SockAddr(a: Addr): (r: seq<Byte>)
    ensures |r| == 16
  {
    [2, 0, a.hi, a.lo, a.ip.a, a.ip.b, a.ip.c, a.ip.d, 0, 0, 0, 0, 0, 0, 0, 0]
  }

  // ---------- headers ----------

  const MINI_HEADER := 4
  const VIDEO_HEADER := 6
  const FULL_HEADER := 12

  const FRAME_IAX: Byte := 6

  function Short(buf: seq<Byte>, i: nat): nat
    requires i + 1 < |buf|
  {
    buf[i] as int * 256 + buf[i + 1] as int
  }

  predicate IsFull(buf: seq<Byte>)
    requires |buf| >= MINI_HEADER
  {
    Short(buf, 0) >= 0x8000
  }

  predicate IsVideo(buf: seq<Byte>)
    requires |buf| >= MINI_HEADER
  {
    Short(buf, 0) == 0 && Short(buf, 2) >= 0x8000
  }

  /** The call number at offset i, without the flag bit. */
  function CallNo(buf: seq<Byte>, i: nat): nat
    requires i + 1 < |buf|
  {
    Short(buf, i) % 0x8000
  }

  datatype Command = TxCnt | Heartbeat | TxReady | Hangup | TxRej | Other

  /** The command of a full frame.  Only IAX frames carry commands, and a compressed
      subclass (flag 0x80) stands for a power of two or -1, which is none of them. */
  function CommandOf(buf: seq<Byte>): Command
    requires |buf| >= FULL_HEADER
  {
    if buf[10] != FRAME_IAX then Other
    else match buf[11]
         case 5 => Hangup
         case 23 => TxCnt
         case 25 => TxReady
         case 27 => TxRej
         case 41 => Heartbeat
         case _ => Other
  }

  // ---------- information elements ----------

  const IE_USERNAME: Byte := 6
  const IE_APPARENT_ADDR: Byte := 18
  const IE_TXEVENT: Byte := 216
  const IE_RELAY_TOKEN: Byte := 222

  datatype Element = Element(ie: Byte, data: seq<Byte>)

  predicate Fits(e: Element) {
    |e.data| < 256
  }

  function PrintElement(e: Element): seq<Byte>
    requires Fits(e)
  {
    [e.ie, |e.data|] + e.data
  }

  function Print(es: seq<Element>): seq<Byte>
    requires forall e :: e in es ==> Fits(e)
  {
    if es == [] then [] else PrintElement(es[0]) + Print(es[1..])
  }

  /** What the parser collects: the two character arrays, as far as they were written. */
  datatype Ies = Ies(token: seq<Byte>, username: seq<Byte>)

  const NO_IES := Ies([], [])

  /** A memcpy to the start of an array. */
  function Overlay(buf: seq<Byte>, data: seq<Byte>): seq<Byte> {
    data + if |data| < |buf| then buf[|data|..] else []
  }

  function Collect(ies: Ies, e: Element): Ies {
    if e.ie == IE_RELAY_TOKEN then ies.(token := Overlay(ies.token, e.data))
    else if e.ie == IE_USERNAME then ies.(username := Overlay(ies.username, e.data))
    else ies
  }

  function CollectAll(ies: Ies, es: seq<Element>): Ies
    decreases |es|
  {
    if es == [] then ies else CollectAll(Collect(ies, es[0]), es[1..])
  }

  /** An array up to its first NUL. */
  function CString(buf: seq<Byte>): (s: seq<Byte>)
    ensures s <= buf && 0 !in s
    ensures |s| == |buf| || buf[|s|] == 0
  {
    if buf == [] || buf[0] == 0 then [] else [buf[0]] + CString(buf[1..])
  }

  lemma FirstElement(data: seq<Byte>, n: nat)
    requires |data| >= n + 2 && data[1] == n
    ensures PrintElement(Element(data[0], data[2..n + 2])) + data[n + 2..] == data
  {
  }

  lemma PrintCons(e: Element, es: seq<Element>)
    requires Fits(e) && forall x :: x in es ==> Fits(x)
    ensures (forall x :: x in [e] + es ==> Fits(x)) && Print([e] + es) == PrintElement(e) + Print(es)
  {
    assert ([e] + es)[1..] == es;
  }

  /** Splits a body into its elements, or None when it is not made of whole elements. */
  function Split(data: seq<Byte>): (r: Option<seq<Element>>)
    ensures r.Some? ==> (forall e :: e in r.value ==> Fits(e)) && Print(r.value) == data
  {
    if data == [] then Some([])
    else if |data| < 2 || data[1] > |data| - 2 then None
    else
      var rest := Split(data[data[1] + 2..]);
      if rest.None? then None
      else
        var e := Element(data[0], data[2..data[1] + 2]);
        FirstElement(data, data[1]);
        PrintCons(e, rest.value);
        Some([e] + rest.value)
  }

  /** The parser's loop accepts exactly the bodies that split into whole elements. */
  method ParseIes(data: seq<Byte>) returns (r: Option<Ies>)
    ensures r.Some? <==> Split(data).Some?
    ensures r.Some? ==> r.value == CollectAll(NO_IES, Split(data).value)
  {
    var ies := NO_IES;
    var rest := data;
    ghost var seen: seq<Element> := [];
    while |rest| >= 2
      invariant Split(data).Some? <==> Split(rest).Some?
      invariant Split(rest).Some? ==>
                  CollectAll(NO_IES, Split(data).value) == CollectAll(ies, Split(rest).value)
      decreases |rest|
    {
      var ie, len := rest[0], rest[1];
      if len > |rest| - 2 {
        return None;
      }
      if ie == IE_RELAY_TOKEN {
        ies := ies.(token := Overlay(ies.token, rest[2..len + 2]));
      } else if ie == IE_USERNAME {
        ies := ies.(username := Overlay(ies.username, rest[2..len + 2]));
      }
      rest := rest[len + 2..];
    }
    return if rest != [] then None else Some(ies);
  }

  lemma SplitElement(e: Element, rest: seq<Byte>)
    requires Fits(e)
    ensures Split(PrintElement(e) + rest) == if Split(rest).Some? then Some([e] + Split(rest).value) else None
  {
    var d := PrintElement(e) + rest;
    assert d[0] == e.ie && d[1] == |e.data|;
    assert d[2..|e.data| + 2] == e.data;
    assert d[|e.data| + 2..] == rest;
  }

  lemma {:induction false} SplitPrint(es: seq<Element>)
    requires forall e :: e in es ==> Fits(e)
    ensures Split(Print(es)) == Some(es)
  {
    if es != [] {
      SplitPrint(es[1..]);
      SplitElement(es[0], Print(es[1..]));
      assert es == [es[0]] + es[1..];
    }
  }

  /** A body is accepted exactly when it is the encoding of a list of elements, and that
      list is the only one. */
  lemma AcceptsWholeElements(data: seq<Byte>)
    ensures Split(data).Some? <==> exists es: seq<Element> :: (forall e :: e in es ==> Fits(e)) && Print(es) == data
    ensures forall es: seq<Element> ::
              (forall e :: e in es ==> Fits(e)) && Print(es) == data ==> Split(data) == Some(es)
  {
    forall es: seq<Element> | (forall e :: e in es ==> Fits(e)) && Print(es) == data
      ensures Split(data) == Some(es)
    {
      SplitPrint(es);
    }
    if Split(data).Some? {
      assert Print(Split(data).value) == data;
    }
  }

  lemma {:induction false} PrintAppend(xs: seq<Element>, ys: seq<Element>)
    requires forall e :: e in xs + ys ==> Fits(e)
    ensures (forall e :: e in xs ==> Fits(e)) && (forall e :: e in ys ==> Fits(e))
    ensures Print(xs + ys) == Print(xs) + Print(ys)
  {
    assert (forall e :: e in xs ==> e in xs + ys) && (forall e :: e in ys ==> e in xs + ys);
    if xs == [] {
      assert xs + ys == ys;
    } else {
      assert (xs + ys)[1..] == xs[1..] + ys;
      assert forall e :: e in xs[1..] + ys ==> e in xs + ys;
      PrintAppend(xs[1..], ys);
    }
  }

  lemma {:induction false} CollectAppend(ies: Ies, xs: seq<Element>, ys: seq<Element>)
    ensures CollectAll(ies, xs + ys) == CollectAll(CollectAll(ies, xs), ys)
    decreases |xs|
  {
    if xs == [] {
      assert xs + ys == ys;
    } else {
      assert (xs + ys)[1..] == xs[1..] + ys;
      CollectAppend(Collect(ies, xs[0]), xs[1..], ys);
    }
  }

  /** What the relay appends to a heartbeat before it forwards it. */
  function Annotation(sender: Addr, event: Byte): seq<Byte> {
    [IE_APPARENT_ADDR, 16] + SockAddr(sender) + [IE_TXEVENT, 1, event]
  }

  /** A body that was accepted is still accepted with the relay's elements behind it, and
      says the same. */
  lemma AnnotationKeepsBody(body: seq<Byte>, sender: Addr, event: Byte)
    requires Split(body).Some?
    ensures Split(body + Annotation(sender, event)).Some?
    ensures CollectAll(NO_IES, Split(body + Annotation(sender, event)).value) == CollectAll(NO_IES, Split(body).value)
  {
    var es := [Element(IE_APPARENT_ADDR, SockAddr(sender)), Element(IE_TXEVENT, [event])];
    calc {
      Print(es);
      PrintElement(es[0]) + Print(es[1..]);
      { assert es[1..][1..] == []; assert Print(es[1..]) == PrintElement(es[1]) + []; }
      PrintElement(es[0]) + PrintElement(es[1]);
      Annotation(sender, event);
    }
    var all := Split(body).value;
    PrintAppend(all, es);
    SplitPrint(all + es);
    CollectAppend(NO_IES, all, es);
    var ies := CollectAll(NO_IES, all);
    assert CollectAll(ies, es) == CollectAll(Collect(ies, es[0]), es[1..]) == ies;
  }
}
