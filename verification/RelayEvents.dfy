/** What the relay tells the legs of a route. */
module RelayEvents {
  import opened Basics
  import opened RelayFrames
  import opened RelayRoutes
  import opened RelaySafety

  /** The first TXCNT of the second leg: each leg gets the TXCNT of the other. */
  predicate SetUp(r: Route, r': Route, addr: Addr, buf: seq<Byte>, sent: seq<Datagram>) {
    r.status.Setting? && r'.status.Setted? ==>
      r'.rAddr == addr && sent == [Datagram(r'.lAddr, buf), Datagram(r'.rAddr, r'.lPkt)]
  }

  /** Each leg gets the last packet of the other, with the event of the new status. */
  predicate Announced(r: Route, r': Route, sent: seq<Datagram>) {
    && (r'.status != r.status && r'.status.Natted? ==> Exchanged(r', 3, sent))
    && (r'.status != r.status && r'.status.P2ped? ==> Exchanged(r', 4, sent))
    && (Connected(r.status) && (r'.lAddr != r.lAddr || r'.rAddr != r.rAddr) ==> Exchanged(r', 2, sent))
  }

  predicate Exchanged(r: Route, event: Byte, sent: seq<Datagram>) {
    sent == [Datagram(r.rAddr, r.lPkt + [216, 1, event]), Datagram(r.lAddr, r.rPkt + [216, 1, event])]
  }

  ghost predicate AllTold(st: State, addr: Addr, buf: seq<Byte>, o: Outcome) {
    && |st.routes| <= |o.st.routes|
    && forall i :: 0 <= i < |st.routes| ==>
         SetUp(st.routes[i], o.st.routes[i], addr, buf, o.sent) && Announced(st.routes[i], o.st.routes[i], o.sent)
  }

  lemma TxCntTells(st: State, addr: Addr, callno: nat, buf: seq<Byte>, token: seq<Byte>)
    ensures AllTold(st, addr, buf, OnTxCnt(st, addr, callno, buf, token))
  {
  }

  lemma HeartbeatTells(st: State, addr: Addr, callno: nat, buf: seq<Byte>, token: seq<Byte>)
    ensures AllTold(st, addr, buf, OnHeartbeat(st, addr, callno, buf, token))
  {
  }

  lemma TxReadyTells(st: State, addr: Addr, callno: nat, buf: seq<Byte>)
    requires Inv(st)
    ensures AllTold(st, addr, buf, OnTxReady(st, addr, callno))
  {
    FoundIsSetted(st, addr, callno);
  }

  lemma OtherTells(st: State, addr: Addr, callno: nat, buf: seq<Byte>, command: Command)
    requires Inv(st)
    ensures AllTold(st, addr, buf, OnOther(st, addr, callno, buf, command))
  {
    FoundIsSetted(st, addr, callno);
  }

  /** Whatever a datagram changes is told to both legs: the second leg's TXCNT exchanges the
      two legs' packets, and every move to NATTED or P2PED and every new address of a connected
      leg is announced at the legs' present addresses, with the event of that change. */
  lemma ChangesAreAnnounced(st: State, addr: Addr, buf: seq<Byte>)
    requires Inv(st)
    ensures AllTold(st, addr, buf, Receive(st, addr, buf))
  {
    if |buf| >= FULL_HEADER && IsFull(buf) {
      var callno := CallNo(buf, 0);
      var body := buf[FULL_HEADER..];
      match CommandOf(buf)
      case TxCnt =>
        if Token(body).Some? {
          TxCntTells(st, addr, callno, buf, Token(body).value);
        }
      case Heartbeat =>
        if Token(body).Some? {
          HeartbeatTells(st, addr, callno, buf, Token(body).value);
        }
      case TxReady => TxReadyTells(st, addr, callno, buf);
      case _ => OtherTells(st, addr, callno, buf, CommandOf(buf));
    }
  }

  /** The event that a heartbeat carries tells the other leg how the two are placed, until
      the route is connected the one way or the other. */
  lemma HeartbeatReachesPeer(ins: seq<Input>, addr: Addr, callno: nat, buf: seq<Byte>, token: seq<Byte>, side: Side)
    requires |buf| >= FULL_HEADER && Split(buf[FULL_HEADER..]).Some?
    requires var f := FindToken(After(ins), token);
             && f.Some? && Connected(After(ins).routes[f.value].status)
             && OnSide(After(ins).routes[f.value], side, addr, callno)
    ensures var st := After(ins);
            var r := st.routes[FindToken(st, token).value];
            var o := OnHeartbeat(st, addr, callno, buf, token);
            && |o.sent| == 1 && o.sent[0].to == (if side.Left? then r.rAddr else r.lAddr) && buf <= o.sent[0].data
            && (exists event: Byte ::
                  && o.sent[0].data == buf + Annotation(addr, event)
                  && event == if r.status.Natted? || r.status.P2ped? then 5
                              else if r.lAddr.ip == r.rAddr.ip then 1 else 0)
            && Token(o.sent[0].data[FULL_HEADER..]) == Token(buf[FULL_HEADER..])
  {
    var st := After(ins);
    AfterKeeps(ins);
    var r := st.routes[FindToken(st, token).value];
    assert RouteOk(r);
    var event := HeartbeatEvent(r);
    ForwardedHeartbeatKeepsToken(buf, addr, event);
    assert OnHeartbeat(st, addr, callno, buf, token).sent == [Datagram(Peer(r, side), buf + Annotation(addr, event))];
  }
}
