/**
 Whole calls through the relay: two phones send TXCNT with one token, and everything that follows
 goes from the one to the other.
 */
module RelayRuns {
  import opened Basics
  import opened RelayFrames
  import opened RelayRoutes
  import opened RelaySafety
  import opened RelayLookup
  import opened RelayEffects

  /** Two phones with different call numbers send TXCNT with the same token. */
  predicate Callers(x: Input, y: Input, c: nat, d: nat, token: seq<Byte>) {
    IsTxCnt(x, c, token) && IsTxCnt(y, d, token) && c != d
  }

  /** The first TXCNT is kept; the second makes the route SETTED and each phone gets the other's. */
  lemma CallIsSetUp(x: Input, y: Input, c: nat, d: nat, token: seq<Byte>)
    requires Callers(x, y, c, d, token)
    ensures Receive(Init, x.addr, x.buf).sent == []
    ensures Receive(After([] + [x]), y.addr, y.buf).sent == [Datagram(x.addr, y.buf), Datagram(y.addr, x.buf)]
    ensures After([] + [x] + [y]).routes == [Route(token, x.addr, y.addr, c, d, Setted, 0, x.buf, [])]
  {
    AfterPush([], x);
    FirstTxCnt(x, c, token);
    KnownToken(Single(x, c, token), y, d, token);
    PairIsMade(x, y, c, d, token);
  }

  /** Two TXCNTs with different call numbers are joined to one route if and only if the first token
      begins the second; otherwise there are two routes of one leg each, and nothing is sent. */
  lemma JoinedIffSameToken(x: Input, y: Input, c: nat, d: nat, s: seq<Byte>, t: seq<Byte>)
    requires IsTxCnt(x, c, s) && IsTxCnt(y, d, t) && c != d
    ensures var st := After([] + [x] + [y]); var sent := Receive(After([] + [x]), y.addr, y.buf).sent;
            if s <= t then
              && st.routes == [Route(s, x.addr, y.addr, c, d, Setted, 0, x.buf, [])]
              && sent == [Datagram(x.addr, y.buf), Datagram(y.addr, x.buf)]
            else
              && st.routes == [Route(s, x.addr, NO_ADDR, c, 0, Setting, 0, x.buf, []),
                               Route(t, y.addr, NO_ADDR, d, 0, Setting, 0, y.buf, [])]
              && sent == []
  {
    AfterPush([], x);
    FirstTxCnt(x, c, s);
    AfterPush([] + [x], y);
    var st := Single(x, c, s);
    if s <= t {
      KnownToken(st, y, d, t);
      assert st.routes[0 := Route(s, x.addr, y.addr, c, d, Setted, 0, x.buf, [])]
          == [Route(s, x.addr, y.addr, c, d, Setted, 0, x.buf, [])];
    } else {
      NewToken(st, y, d, t);
    }
  }

  /** The state between two phones is always one of these. */
  lemma LegsOfPair(x: Input, y: Input, c: nat, d: nat, token: seq<Byte>, addr: Addr, callno: nat)
    requires c != d
    ensures FindLeg(Pair(x, y, c, d, token, Setted, 0), addr, callno)
         == if addr == x.addr && callno == c then Some((0, Left))
            else if addr == y.addr && callno == d then Some((0, Right)) else None
  {
    var st := Pair(x, y, c, d, token, Setted, 0);
    assert Bucket(st, callno) == if callno == c || callno == d then [0] else [];
  }

  /** A mini frame from the one phone goes to the other and nowhere else; one from anybody else, or
      with another call number, is dropped. */
  lemma MediaCrosses(x: Input, y: Input, c: nat, d: nat, token: seq<Byte>, z: Input)
    requires Callers(x, y, c, d, token) && |z.buf| >= 4 && !IsFull(z.buf) && !IsVideo(z.buf)
    ensures var st, callno := After([] + [x] + [y]), CallNo(z.buf, 0);
            && Receive(st, z.addr, z.buf).st == st
            && Receive(st, z.addr, z.buf).sent
               == if z.addr == x.addr && callno == c then [Datagram(y.addr, z.buf)]
                  else if z.addr == y.addr && callno == d then [Datagram(x.addr, z.buf)]
                  else []
  {
    PairIsMade(x, y, c, d, token);
    LegsOfPair(x, y, c, d, token, z.addr, CallNo(z.buf, 0));
  }

  /** The same for video frames, when neither call number is 0. */
  lemma VideoCrosses(x: Input, y: Input, c: nat, d: nat, token: seq<Byte>, z: Input)
    requires Callers(x, y, c, d, token) && c != 0 && d != 0 && |z.buf| >= 6 && IsVideo(z.buf)
    ensures var st, callno := After([] + [x] + [y]), CallNo(z.buf, 2);
            && Receive(st, z.addr, z.buf).st == st
            && Receive(st, z.addr, z.buf).sent
               == if z.addr == x.addr && callno == c then [Datagram(y.addr, z.buf)]
                  else if z.addr == y.addr && callno == d then [Datagram(x.addr, z.buf)]
                  else []
  {
    PairIsMade(x, y, c, d, token);
    LegsOfPair(x, y, c, d, token, z.addr, CallNo(z.buf, 2));
    LegsOfPair(x, y, c, d, token, z.addr, 0);
    HeaderBytes(z.buf, 0);
    MediaIsPassedOn(After([] + [x] + [y]), z.addr, z.buf);
  }

  /** A heartbeat from the one phone goes to the other with event 0 when their IP addresses differ
      and 1 when they are equal. */
  lemma HeartbeatCrosses(x: Input, y: Input, c: nat, d: nat, token: seq<Byte>, h: Input, callno: nat)
    requires Callers(x, y, c, d, token) && IsHeartbeat(h, callno, token)
    ensures var sent := Receive(After([] + [x] + [y]), h.addr, h.buf).sent;
            var data := h.buf + Annotation(h.addr, if x.addr.ip == y.addr.ip then 1 else 0);
            && (h.addr == x.addr && callno == c ==> sent == [Datagram(y.addr, data)])
            && (h.addr == y.addr && callno == d ==> sent == [Datagram(x.addr, data)])
  {
    PairIsMade(x, y, c, d, token);
    HeartbeatStays(After([] + [x] + [y]), h, callno, token);
  }

  lemma PairMoves(st: State, x: Input, y: Input, c: nat, d: nat, token: seq<Byte>, h: Input)
    requires c != d && st == Pair(x, y, c, d, token, Setted, 0) && IsHeartbeat(h, c, token) && h.addr != x.addr
    ensures var o := Receive(st, h.addr, h.buf);
            && o.sent == [Datagram(y.addr, x.buf + [216, 1, 2]), Datagram(h.addr, [216, 1, 2])]
            && o.st.routes == [Route(token, h.addr, y.addr, c, d, Setted, 0, x.buf, [])]
            && o.st.buckets == st.buckets
  {
    HeartbeatMoves(st, h, c, token);
    assert [] + [216, 1, 2] == [216, 1, 2];
  }

  /** A heartbeat from a new address moves a phone there; both hear of it, and what the other sends
      goes to the new address. */
  lemma PhoneMoves(x: Input, y: Input, c: nat, d: nat, token: seq<Byte>, h: Input, z: Input)
    requires Callers(x, y, c, d, token) && IsHeartbeat(h, c, token) && h.addr != x.addr
    requires |z.buf| >= 4 && !IsFull(z.buf) && !IsVideo(z.buf) && z.addr == y.addr && CallNo(z.buf, 0) == d
    ensures Receive(After([] + [x] + [y]), h.addr, h.buf).sent
         == [Datagram(y.addr, x.buf + [216, 1, 2]), Datagram(h.addr, [216, 1, 2])]
    ensures Receive(After([] + [x] + [y] + [h]), z.addr, z.buf).sent == [Datagram(h.addr, z.buf)]
  {
    var ins := [] + [x] + [y];
    PairIsMade(x, y, c, d, token);
    AfterPush(ins, h);
    PairMoves(After(ins), x, y, c, d, token, h);
    assert Bucket(After(ins + [h]), d) == [0];
  }

  lemma PairIsInv(x: Input, y: Input, c: nat, d: nat, token: seq<Byte>, bits: bv8)
    requires c != d && (bits == 0 || bits == FirstBit(x, y))
    ensures Inv(Pair(x, y, c, d, token, Setted, bits))
  {
    var st := Pair(x, y, c, d, token, Setted, bits);
    forall k, id | id in Bucket(st, k) ensures EntryOk(st.routes, k, id) {
      assert Bucket(st, k) == [0] || Bucket(st, k) == [];
    }
  }

  /** A TXREADY of the one phone sends nothing; that of the other connects them, and each gets the
      last packet of the other: event 3 when their IP addresses differ, and 4 when they are equal. */
  lemma ConnectionIsTold(x: Input, y: Input, c: nat, d: nat, token: seq<Byte>, rx: Input, ry: Input)
    requires Callers(x, y, c, d, token)
    requires IsTxReady(rx, c) && rx.addr == x.addr && IsTxReady(ry, d) && ry.addr == y.addr
    ensures Receive(After([] + [x] + [y]), rx.addr, rx.buf).sent == []
    ensures var event := if x.addr.ip == y.addr.ip then 4 else 3;
            Receive(After([] + [x] + [y] + [rx]), ry.addr, ry.buf).sent
            == [Datagram(y.addr, x.buf + [216, 1, event]), Datagram(x.addr, [216, 1, event])]
  {
    var ins, bit := [] + [x] + [y], FirstBit(x, y);
    PairIsMade(x, y, c, d, token);
    PairIsInv(x, y, c, d, token, 0);
    PairIsInv(x, y, c, d, token, bit);
    AfterPush(ins, rx);
    FirstReady(x, y, c, d, token, rx);
    BothFound(x, y, c, d, token, 0);
    BothFound(x, y, c, d, token, bit);
    ReadyIsMarked(After(ins), rx, c);
    ReadyIsMarked(After(ins + [rx]), ry, d);
    var event: Byte := if x.addr.ip == y.addr.ip then 4 else 3;
    assert [] + [216, 1, event] == [216, 1, event];
  }

  lemma EmptiedBuckets(st: State, id: Rid, status: Status)
    requires |st.routes| == 1 && id == 0
    requires var r := st.routes[0]; Bucket(st, r.lCallno) == [0] && Bucket(st, r.rCallno) == [0]
    ensures var q, r := Release(st, id, status), st.routes[0];
            Bucket(q, r.lCallno) == [] && Bucket(q, r.rCallno) == []
            && forall c :: c != r.lCallno && c != r.rCallno ==> Bucket(q, c) == Bucket(st, c)
  {
    var r := st.routes[0];
    var st1 := WithRoute(st, id, r.(status := status));
    assert DropLeg(st1.routes, [0], r.lAddr, r.lCallno) == [] by {
      assert [0][1..] == [];
    }
    assert DropLeg(st1.routes, [0], r.rAddr, r.rCallno) == [] by {
      assert [0][1..] == [];
    }
  }

  /** The first bytes of a full frame with one of two commands. */
  predicate EndsCall(e: Input) {
    |e.buf| >= 12 && e.buf[0] >= 128 && e.buf[10] == 6 && (e.buf[11] == 5 || e.buf[11] == 27)
  }

  lemma PairEnds(st: State, x: Input, y: Input, c: nat, d: nat, token: seq<Byte>, e: Input)
    requires c != d && EndsCall(e) && st == Pair(x, y, c, d, token, Setted, 0)
    requires (e.addr == x.addr && CallNo(e.buf, 0) == c) || (e.addr == y.addr && CallNo(e.buf, 0) == d)
    ensures var status := if e.buf[11] == 5 then Releasing else Released; var o := Receive(st, e.addr, e.buf);
            && o.st.routes == [Route(token, x.addr, y.addr, c, d, status, 0, x.buf, [])]
            && o.sent == [Datagram(if CallNo(e.buf, 0) == c then y.addr else x.addr, e.buf)]
            && forall callno :: Bucket(o.st, callno) == []
  {
    HeaderBytes(e.buf, 0);
    CommandNumbers(e.buf);
    LegsOfPair(x, y, c, d, token, e.addr, CallNo(e.buf, 0));
    OtherIsPassedOn(st, e, CallNo(e.buf, 0), CommandOf(e.buf));
    EmptiedBuckets(st, 0, if e.buf[11] == 5 then Releasing else Released);
  }

  /** A HANGUP or TXREJ from a phone goes to the other and ends the call: the route is RELEASING or
      RELEASED, and nobody's frames are passed on any more. */
  lemma CallEnds(x: Input, y: Input, c: nat, d: nat, token: seq<Byte>, e: Input, z: Input)
    requires Callers(x, y, c, d, token) && EndsCall(e)
    requires (e.addr == x.addr && CallNo(e.buf, 0) == c) || (e.addr == y.addr && CallNo(e.buf, 0) == d)
    requires |z.buf| >= 4 && !IsFull(z.buf) && !IsVideo(z.buf)
    ensures var status := if e.buf[11] == 5 then Releasing else Released;
            After([] + [x] + [y] + [e]).routes == [Route(token, x.addr, y.addr, c, d, status, 0, x.buf, [])]
    ensures Receive(After([] + [x] + [y]), e.addr, e.buf).sent
         == [Datagram(if CallNo(e.buf, 0) == c then y.addr else x.addr, e.buf)]
    ensures Receive(After([] + [x] + [y] + [e]), z.addr, z.buf).sent == []
  {
    var ins := [] + [x] + [y];
    PairIsMade(x, y, c, d, token);
    AfterPush(ins, e);
    PairEnds(After(ins), x, y, c, d, token, e);
  }
}
