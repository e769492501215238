/**
 What one datagram changes and sends, in any state, field by field and byte by byte.
 */
module RelayEffects {
  import opened Basics
  import opened RelayFrames
  import opened RelayRoutes
  import opened RelaySafety
  import opened RelayLookup

  // ---------- what a frame says ----------

  /** The two call numbers and the flag bits, in network byte order. */
  lemma HeaderBytes(buf: seq<Byte>, i: nat)
    requires |buf| >= 4 && i + 1 < |buf|
    ensures IsFull(buf) <==> buf[0] >= 128
    ensures IsVideo(buf) <==> buf[0] == 0 && buf[1] == 0 && buf[2] >= 128
    ensures CallNo(buf, i) == buf[i] as int % 128 * 256 + buf[i + 1]
  {
    assert Short(buf, i) == buf[i] as int * 256 + buf[i + 1];
    if buf[i] < 128 {
      assert Short(buf, i) < 0x8000;
    } else {
      assert Short(buf, i) - 0x8000 == (buf[i] as int - 128) * 256 + buf[i + 1] < 0x8000;
    }
  }

  /** The numbers of the commands; only frames of type 6 have them. */
  lemma CommandNumbers(buf: seq<Byte>)
    requires |buf| >= 12
    ensures CommandOf(buf).TxCnt? <==> buf[10] == 6 && buf[11] == 23
    ensures CommandOf(buf).TxReady? <==> buf[10] == 6 && buf[11] == 25
    ensures CommandOf(buf).Heartbeat? <==> buf[10] == 6 && buf[11] == 41
    ensures CommandOf(buf).Hangup? <==> buf[10] == 6 && buf[11] == 5
    ensures CommandOf(buf).TxRej? <==> buf[10] == 6 && buf[11] == 27
  {
  }

  /** The address element and the event element that a forwarded heartbeat gets. */
  lemma AnnotationBytes(a: Addr, event: Byte)
    ensures Annotation(a, event)
         == [18, 16, 2, 0, a.hi, a.lo, a.ip.a, a.ip.b, a.ip.c, a.ip.d, 0, 0, 0, 0, 0, 0, 0, 0, 216, 1, event]
  {
  }

  /** A datagram that is shorter than its header does nothing: 4 bytes, 6 for video, 12 for a full
      frame. */
  lemma ShortIsDropped(st: State, addr: Addr, buf: seq<Byte>)
    requires |buf| < 12
    ensures |buf| < 4 || IsFull(buf) || (|buf| < 6 && IsVideo(buf)) ==> Receive(st, addr, buf) == Outcome(st, [])
  {
    if |buf| >= 4 {
      HeaderBytes(buf, 0);
    }
  }

  /** Without a token, or with a body that is not made of whole elements, the commands that need them
      do nothing. */
  lemma MalformedIsDropped(st: State, addr: Addr, buf: seq<Byte>)
    requires |buf| >= 12 && IsFull(buf)
    ensures (CommandOf(buf).TxCnt? || CommandOf(buf).Heartbeat?) && Token(buf[12..]).None? ==>
              Receive(st, addr, buf) == Outcome(st, [])
    ensures CommandOf(buf).TxReady? && Split(buf[12..]).None? ==> Receive(st, addr, buf) == Outcome(st, [])
  {
  }

  // ---------- the token ----------

  predicate NoneIs(es: seq<Element>, ie: Byte) {
    forall e :: e in es ==> e.ie != ie
  }

  lemma {:induction false} NoTokenCollected(ies: Ies, es: seq<Element>)
    requires NoneIs(es, 222)
    ensures CollectAll(ies, es).token == ies.token
    decreases |es|
  {
    if es != [] {
      NoTokenCollected(Collect(ies, es[0]), es[1..]);
    }
  }

  lemma {:induction false} NoNameCollected(ies: Ies, es: seq<Element>)
    requires NoneIs(es, 6)
    ensures CollectAll(ies, es).username == ies.username
    decreases |es|
  {
    if es != [] {
      NoNameCollected(Collect(ies, es[0]), es[1..]);
    }
  }

  lemma CollectMiddle(ies: Ies, before: seq<Element>, e: Element, after: seq<Element>)
    ensures CollectAll(ies, before + [e] + after) == CollectAll(Collect(CollectAll(ies, before), e), after)
  {
    CollectAppend(ies, before + [e], after);
    CollectAppend(ies, before, [e]);
    var here := CollectAll(ies, before);
    assert [e][1..] == [];
    assert CollectAll(here, [e]) == CollectAll(Collect(here, e), []);
  }

  /** The characters of element 222 are the token and those of element 6 the user name. */
  lemma CollectedOnce(before: seq<Element>, e: Element, after: seq<Element>)
    requires e.ie == 222 || e.ie == 6
    requires NoneIs(before, e.ie) && NoneIs(after, e.ie)
    ensures var ies := CollectAll(NO_IES, before + [e] + after);
            if e.ie == 222 then ies.token == e.data else ies.username == e.data
  {
    CollectMiddle(NO_IES, before, e, after);
    var here := CollectAll(NO_IES, before);
    assert e.data + [] == e.data;
    if e.ie == 222 {
      NoTokenCollected(NO_IES, before);
      NoTokenCollected(Collect(here, e), after);
    } else {
      NoNameCollected(NO_IES, before);
      NoNameCollected(Collect(here, e), after);
    }
  }

  lemma {:induction false} CStringOfText(s: seq<Byte>)
    requires 0 !in s
    ensures CString(s) == s
  {
    if s != [] {
      CStringOfText(s[1..]);
    }
  }

  /** A second token or user name is copied over the first, whose end stays when it is longer. */
  lemma SecondOverlays(ies: Ies, a: seq<Byte>, b: seq<Byte>, k: nat)
    requires k < |a| || k < |b|
    ensures var token := Collect(ies.(token := a), Element(222, b)).token;
            |token| == (if |a| > |b| then |a| else |b|) && token[k] == if k < |b| then b[k] else a[k]
    ensures var name := Collect(ies.(username := a), Element(6, b)).username;
            |name| == (if |a| > |b| then |a| else |b|) && name[k] == if k < |b| then b[k] else a[k]
  {
  }

  /** Wherever the token stands among the elements of a body, it is the one that the frame names. */
  lemma TokenIsRead(before: seq<Element>, token: seq<Byte>, after: seq<Element>)
    requires 0 < |token| < 256 && 0 !in token && NoneIs(before, 222) && NoneIs(after, 222)
    requires forall e :: e in before + after ==> Fits(e)
    ensures forall e :: e in before + [Element(222, token)] + after ==> Fits(e)
    ensures Token(Print(before + [Element(222, token)] + after)) == Some(token)
  {
    var e := Element(222, token);
    SplitPrint(before + [e] + after);
    CollectedOnce(before, e, after);
    CStringOfText(token);
  }

  /** Without that element, or with one that begins with a NUL, there is none. */
  lemma NoTokenIsRead(before: seq<Element>, data: seq<Byte>, after: seq<Element>)
    requires NoneIs(before, 222) && NoneIs(after, 222) && (data == [] || data[0] == 0)
    requires |data| < 256 && forall e :: e in before + after ==> Fits(e)
    ensures forall e :: e in before + [Element(222, data)] + after ==> Fits(e)
    ensures Token(Print(before + [Element(222, data)] + after)) == None
    ensures (forall e :: e in before ==> Fits(e)) && Token(Print(before)) == None
  {
    var e := Element(222, data);
    SplitPrint(before + [e] + after);
    CollectedOnce(before, e, after);
    assert forall x :: x in before ==> x in before + after;
    SplitPrint(before);
    NoTokenCollected(NO_IES, before);
  }

  // ---------- the lookup by leg ----------

  /** The route is SETTED or RELEASING, and its left or right leg has the address and call number. */
  predicate HasLeft(st: State, id: Rid, addr: Addr, callno: nat) {
    && id < |st.routes| && (st.routes[id].status == Setted || st.routes[id].status == Releasing)
    && st.routes[id].lAddr == addr && st.routes[id].lCallno == callno
  }

  predicate HasRight(st: State, id: Rid, addr: Addr, callno: nat) {
    && id < |st.routes| && (st.routes[id].status == Setted || st.routes[id].status == Releasing)
    && st.routes[id].rAddr == addr && st.routes[id].rCallno == callno
  }

  lemma {:induction false} FirstInList(st: State, ids: seq<Rid>, addr: Addr, callno: nat)
    ensures match FindIn(st.routes, ids, addr, callno)
            case None => forall id :: id in ids ==> !HasLeft(st, id, addr, callno) && !HasRight(st, id, addr, callno)
            case Some((id, side)) =>
              && id in ids
              && (if side.Left? then HasLeft(st, id, addr, callno)
                  else HasRight(st, id, addr, callno) && !HasLeft(st, id, addr, callno))
              && exists k :: 0 <= k < |ids| && ids[k] == id
                             && forall j :: 0 <= j < k ==> !HasLeft(st, ids[j], addr, callno)
                                                           && !HasRight(st, ids[j], addr, callno)
  {
    if ids != [] && !HasLeft(st, ids[0], addr, callno) && !HasRight(st, ids[0], addr, callno) {
      var rest := ids[1..];
      FirstInList(st, rest, addr, callno);
      assert FindIn(st.routes, ids, addr, callno) == FindIn(st.routes, rest, addr, callno);
      match FindIn(st.routes, rest, addr, callno)
      case None =>
      case Some((id, _)) =>
        var k :| 0 <= k < |rest| && rest[k] == id
                 && forall j :: 0 <= j < k ==> !HasLeft(st, rest[j], addr, callno)
                                               && !HasRight(st, rest[j], addr, callno);
        forall j | 0 <= j < k + 1 ensures !HasLeft(st, ids[j], addr, callno) && !HasRight(st, ids[j], addr, callno) {
          assert j > 0 ==> ids[j] == rest[j - 1];
        }
        assert ids[k + 1] == id;
    } else if ids != [] {
      assert ids[0] in ids;
    }
  }

  /** The leg that is found is that of the first route in the bucket of the call number which has it,
      the left one before the right one. */
  lemma FirstLegIsFound(st: State, addr: Addr, callno: nat)
    ensures var ids := if callno in st.buckets then st.buckets[callno] else [];
            match FindLeg(st, addr, callno)
            case None => forall id :: id in ids ==> !HasLeft(st, id, addr, callno) && !HasRight(st, id, addr, callno)
            case Some((id, side)) =>
              && id in ids
              && (if side.Left? then HasLeft(st, id, addr, callno)
                  else HasRight(st, id, addr, callno) && !HasLeft(st, id, addr, callno))
              && exists k :: 0 <= k < |ids| && ids[k] == id
                             && forall j :: 0 <= j < k ==> !HasLeft(st, ids[j], addr, callno)
                                                           && !HasRight(st, ids[j], addr, callno)
  {
    FirstInList(st, Bucket(st, callno), addr, callno);
  }

  // ---------- TXCNT ----------

  predicate IsHeartbeat(x: Input, callno: nat, token: seq<Byte>) {
    IsCommand(x, callno, Heartbeat) && Token(x.buf[12..]) == Some(token)
  }

  /** The newest route has a token that begins this one. */
  predicate Known(st: State, token: seq<Byte>) {
    st.rti.Some? && st.rti.value < |st.routes| && st.routes[st.rti.value].token <= token
  }

  /** No bucket but that of one call number is another, and that one has one more entry in front. */
  ghost predicate Indexed(st: State, q: State, callno: nat, id: Rid) {
    forall c :: Bucket(q, c) == if c == callno then [id] + Bucket(st, c) else Bucket(st, c)
  }

  /** A TXCNT with a new token makes a route of one leg, leaves all others and sends nothing. */
  lemma NewToken(st: State, x: Input, callno: nat, token: seq<Byte>)
    requires IsTxCnt(x, callno, token) && !Known(st, token)
    ensures var o := Receive(st, x.addr, x.buf);
            && o.sent == []
            && o.st.routes
               == st.routes + [Route(token, x.addr, Addr(Ip(0, 0, 0, 0), 0, 0), callno, 0, Setting, 0, x.buf, [])]
            && o.st.rti == Some(|st.routes|)
            && Indexed(st, o.st, callno, |st.routes|)
  {
  }

  /** A TXCNT with the token of the newest route: the first leg may repeat it from anywhere, the
      second leg completes the route and each leg gets the packet of the other; once both are there
      it does nothing. */
  lemma KnownToken(st: State, x: Input, callno: nat, token: seq<Byte>)
    requires IsTxCnt(x, callno, token) && Known(st, token)
    ensures var id := st.rti.value; var r := st.routes[id]; var o := Receive(st, x.addr, x.buf);
            && o.st.rti == st.rti
            && (!r.status.Setting? ==> o == Outcome(st, []))
            && (r.status.Setting? && callno == r.lCallno ==>
                  && o.sent == [] && o.st.buckets == st.buckets
                  && o.st.routes == st.routes[id := Route(r.token, x.addr, r.rAddr, r.lCallno, r.rCallno,
                                                          Setting, r.txstatus, x.buf, r.rPkt)])
            && (r.status.Setting? && callno != r.lCallno ==>
                  && o.sent == [Datagram(r.lAddr, x.buf), Datagram(x.addr, r.lPkt)]
                  && Indexed(st, o.st, callno, id)
                  && o.st.routes == st.routes[id := Route(r.token, r.lAddr, x.addr, r.lCallno, callno,
                                                          Setted, r.txstatus, r.lPkt, r.rPkt)])
  {
  }

  /** A TXCNT or heartbeat changes only the newest route, and only when that route's token begins
      the token of the frame. */
  lemma OnlyItsRoute(st: State, x: Input, callno: nat, token: seq<Byte>, i: Rid)
    requires IsTxCnt(x, callno, token) || IsHeartbeat(x, callno, token)
    requires i < |st.routes|
    ensures var q := Receive(st, x.addr, x.buf).st;
            && i < |q.routes|
            && (q.routes[i] != st.routes[i] ==> st.rti == Some(i) && st.routes[i].token <= token)
  {
    if IsTxCnt(x, callno, token) {
      if Known(st, token) {
        KnownToken(st, x, callno, token);
      } else {
        NewToken(st, x, callno, token);
      }
    }
  }

  // ---------- heartbeats ----------

  /** A heartbeat from the address of a leg is passed to the other leg, with the sender's address and
      an event: 0 or 1 for different and equal IP addresses while the route is SETTED, 5 when it is
      connected one way or the other. The leg's last packet is kept and the TXREADY bits are cleared. */
  lemma HeartbeatStays(st: State, x: Input, callno: nat, token: seq<Byte>)
    requires IsHeartbeat(x, callno, token) && Known(st, token)
    ensures var id := st.rti.value; var r := st.routes[id]; var o := Receive(st, x.addr, x.buf);
            var event := if r.status.Setted? then (if r.lAddr.ip == r.rAddr.ip then 1 else 0)
                         else if r.status.Natted? || r.status.P2ped? then 5 else 0;
            var data := x.buf + Annotation(x.addr, event);
            && (callno == r.lCallno && x.addr == r.lAddr ==>
                  && o.sent == [Datagram(r.rAddr, data)]
                  && o.st == st.(routes := st.routes[id := r.(txstatus := 0, lPkt := x.buf)]))
            && (callno != r.lCallno && x.addr == r.rAddr ==>
                  && o.sent == [Datagram(r.lAddr, data)]
                  && o.st == st.(routes := st.routes[id := r.(txstatus := 0, rPkt := x.buf)]))
  {
  }

  /** A heartbeat from another address moves the leg there. A connected route is SETTED again, and
      each leg gets the last packet of the other with event 2, at its present address. */
  lemma HeartbeatMoves(st: State, x: Input, callno: nat, token: seq<Byte>)
    requires IsHeartbeat(x, callno, token) && Known(st, token)
    ensures var id := st.rti.value; var r := st.routes[id]; var o := Receive(st, x.addr, x.buf);
            var connected := r.status.Setted? || r.status.Natted? || r.status.P2ped?;
            var status := if connected then Setted else r.status;
            && (callno == r.lCallno && x.addr != r.lAddr ==>
                  && o.st == st.(routes := st.routes[id := r.(txstatus := 0, lAddr := x.addr, status := status)])
                  && o.sent == if connected
                               then [Datagram(r.rAddr, r.lPkt + [216, 1, 2]), Datagram(x.addr, r.rPkt + [216, 1, 2])]
                               else [])
            && (callno != r.lCallno && x.addr != r.rAddr ==>
                  && o.st == st.(routes := st.routes[id := r.(txstatus := 0, rAddr := x.addr, status := status)])
                  && o.sent == if connected
                               then [Datagram(x.addr, r.lPkt + [216, 1, 2]), Datagram(r.lAddr, r.rPkt + [216, 1, 2])]
                               else [])
  {
  }

  lemma UnknownHeartbeat(st: State, x: Input, callno: nat, token: seq<Byte>)
    requires IsHeartbeat(x, callno, token) && !Known(st, token)
    ensures Receive(st, x.addr, x.buf) == Outcome(st, [])
  {
  }

  // ---------- what goes to the leg that is found ----------

  /** A TXREADY of a SETTED route sets the bit of the leg, 1 and 2 when the IP addresses differ and 4
      and 8 when they are equal; 3 makes the route NATTED and 12 P2PED, and each leg gets the last
      packet of the other with event 3 or 4. */
  lemma ReadyIsMarked(st: State, x: Input, callno: nat)
    requires Inv(st) && IsTxReady(x, callno)
    ensures var f := FindLeg(st, x.addr, callno); var o := Receive(st, x.addr, x.buf);
            && (f.None? ==> o == Outcome(st, []))
            && (f.Some? ==>
                  var r := st.routes[f.value.0];
                  var bit := if r.lAddr.ip == r.rAddr.ip then (if f.value.1.Left? then 4 else 8)
                             else (if f.value.1.Left? then 1 else 2);
                  var bits: bv8 := r.txstatus | bit;
                  var status := if bits == 3 then Natted else if bits == 12 then P2ped else Setted;
                  var event := if bits == 3 then 3 else 4;
                  && o.st == st.(routes := st.routes[f.value.0 := r.(txstatus := bits, status := status)])
                  && o.sent == if bits == 3 || bits == 12
                               then [Datagram(r.rAddr, r.lPkt + [216, 1, event]),
                                     Datagram(r.lAddr, r.rPkt + [216, 1, event])]
                               else [])
  {
    FoundIsSetted(st, x.addr, callno);
  }

  /** Every other full frame goes to the other leg; HANGUP makes the route RELEASING and TXREJ
      RELEASED, its other fields stay, and neither changes any other route. */
  lemma OtherIsPassedOn(st: State, x: Input, callno: nat, command: Command)
    requires IsCommand(x, callno, command) && (command.Hangup? || command.TxRej? || command.Other?)
    ensures var f := FindLeg(st, x.addr, callno); var o := Receive(st, x.addr, x.buf);
            && (f.None? ==> o == Outcome(st, []))
            && (f.Some? ==>
                  var r := st.routes[f.value.0];
                  && o.sent == [Datagram(if f.value.1.Left? then r.rAddr else r.lAddr, x.buf)]
                  && o.st.rti == st.rti
                  && (command.Other? ==> o.st == st)
                  && (command.Hangup? ==> o.st.routes == st.routes[f.value.0 := r.(status := Releasing)])
                  && (command.TxRej? ==> o.st.routes == st.routes[f.value.0 := r.(status := Released)]))
  {
  }

  /** Some leg of the route, whatever its status. */
  predicate AnyLeg(routes: seq<Route>, id: Rid, addr: Addr, callno: nat) {
    id < |routes| && ((routes[id].lAddr == addr && routes[id].lCallno == callno)
                      || (routes[id].rAddr == addr && routes[id].rCallno == callno))
  }

  lemma LegsStay(st: State, at: Rid, status: Status, id: Rid, addr: Addr, callno: nat)
    requires at < |st.routes|
    ensures AnyLeg(WithRoute(st, at, st.routes[at].(status := status)).routes, id, addr, callno)
        <==> AnyLeg(st.routes, id, addr, callno)
  {
  }

  lemma LegsUnlinked(st: State, at: Rid, status: Status, c: nat, id: Rid)
    requires at < |st.routes|
    ensures var r := st.routes[at];
            multiset(Bucket(Release(st, at, status), c))[id]
            == if || (c == r.lCallno && AnyLeg(st.routes, id, r.lAddr, r.lCallno))
                  || (c == r.rCallno && AnyLeg(st.routes, id, r.rAddr, r.rCallno))
               then 0 else multiset(Bucket(st, c))[id]
  {
    var r := st.routes[at];
    var st1 := WithRoute(st, at, r.(status := status));
    var st2 := DelFromIndex(st1, r.lAddr, r.lCallno);
    LegsStay(st, at, status, id, r.lAddr, r.lCallno);
    LegsStay(st, at, status, id, r.rAddr, r.rCallno);
    assert Bucket(st1, c) == Bucket(st, c) && st2.routes == st1.routes;
    BucketAfterDel(st1, r.lAddr, r.lCallno, c, id);
    BucketAfterDel(st2, r.rAddr, r.rCallno, c, id);
  }

  /** The release of a route takes the entries with one of its legs out of the buckets of the two call
      numbers, and no others. */
  lemma ReleaseUnlinks(st: State, x: Input, callno: nat, command: Command, c: nat, id: Rid)
    requires IsCommand(x, callno, command) && (command.Hangup? || command.TxRej?)
    requires FindLeg(st, x.addr, callno).Some?
    ensures var r, q := st.routes[FindLeg(st, x.addr, callno).value.0], Receive(st, x.addr, x.buf).st;
            multiset(Bucket(q, c))[id]
            == if || (c == r.lCallno && AnyLeg(st.routes, id, r.lAddr, r.lCallno))
                  || (c == r.rCallno && AnyLeg(st.routes, id, r.rAddr, r.rCallno))
               then 0 else multiset(Bucket(st, c))[id]
  {
    var at, status := FindLeg(st, x.addr, callno).value.0, if command.Hangup? then Releasing else Released;
    assert Receive(st, x.addr, x.buf).st == Release(st, at, status);
    LegsUnlinked(st, at, status, c, id);
  }

  /** A media frame goes to the other leg and changes nothing; a video frame names its call number in
      its second two bytes. */
  lemma MediaIsPassedOn(st: State, addr: Addr, buf: seq<Byte>)
    requires |buf| >= 4 && !IsFull(buf) && (IsVideo(buf) ==> |buf| >= 6 && FindLeg(st, addr, 0).None?)
    ensures var f := FindLeg(st, addr, CallNo(buf, if IsVideo(buf) then 2 else 0)); var o := Receive(st, addr, buf);
            && o.st == st
            && (f.None? ==> o.sent == [])
            && (f.Some? ==> var r := st.routes[f.value.0];
                            o.sent == [Datagram(if f.value.1.Left? then r.rAddr else r.lAddr, buf)])
  {
    HeaderBytes(buf, 0);
  }
}
