/**
 The relay server itself: the route table and the index are updated in place, one
 datagram after another, and every send is recorded.
 */
module RelayServer {
  import opened Basics
  import opened RelayFrames
  import opened RelayRoutes
  import opened RelaySafety
  import opened RelayEvents

  lemma DropLegStep(routes: seq<Route>, list: seq<Rid>, i: nat, addr: Addr, callno: nat, kept: seq<Rid>)
    requires i < |list|
    ensures var rest := kept + DropLeg(routes, list[i..], addr, callno);
            rest == if HasLeg(routes, list[i], addr, callno) then kept + DropLeg(routes, list[i + 1..], addr, callno)
                    else (kept + [list[i]]) + DropLeg(routes, list[i + 1..], addr, callno)
  {
    assert list[i..][1..] == list[i + 1..];
  }

  lemma AddKeepsIndex(st: State, callno: nat, id: Rid)
    requires IndexOk(st) && EntryOk(st.routes, callno, id)
    ensures IndexOk(AddToIndex(st, callno, id))
  {
    var q := AddToIndex(st, callno, id);
    forall c, i | i in Bucket(q, c) ensures EntryOk(q.routes, c, i) {
      assert i in Bucket(st, c) || (c == callno && i == id);
    }
  }

  /** One more entry, in one bucket. */
  ghost predicate Linked(st: State, st': State, callno: nat, id: Rid) {
    forall c: nat, i: Rid ::
      multiset(Bucket(st', c))[i] == multiset(Bucket(st, c))[i] + if c == callno && i == id then 1 else 0
  }

  lemma AddLinks(st: State, callno: nat, id: Rid)
    ensures Linked(st, AddToIndex(st, callno, id), callno, id)
  {
    forall c: nat, i: Rid
      ensures multiset(Bucket(AddToIndex(st, callno, id), c))[i]
           == multiset(Bucket(st, c))[i] + if c == callno && i == id then 1 else 0
    {
      BucketAfterAdd(st, callno, id, c, i);
    }
  }

  /** No entry of the bucket has the leg any more, and no other entry is gone. */
  ghost predicate Unlinked(st: State, st': State, addr: Addr, callno: nat) {
    forall c: nat, i: Rid ::
      multiset(Bucket(st', c))[i]
      == if c == callno && HasLeg(st.routes, i, addr, callno) then 0 else multiset(Bucket(st, c))[i]
  }

  lemma DelUnlinks(st: State, addr: Addr, callno: nat)
    ensures Unlinked(st, DelFromIndex(st, addr, callno), addr, callno)
  {
    forall c: nat, i: Rid
      ensures multiset(Bucket(DelFromIndex(st, addr, callno), c))[i]
           == if c == callno && HasLeg(st.routes, i, addr, callno) then 0 else multiset(Bucket(st, c))[i]
    {
      BucketAfterDel(st, addr, callno, c, i);
    }
  }

  /** What every datagram keeps and tells. */
  ghost predicate Faithful(st: State, addr: Addr, buf: seq<Byte>, st': State, sent: seq<Datagram>) {
    Inv(st') && AllChanged(st, st') && AllTold(st, addr, buf, Outcome(st', sent))
  }

  class Server {
    var routes: seq<Route>
    var rti: Option<Rid>
    var buckets: map<nat, seq<Rid>>
    ghost var sent: seq<Datagram>

    ghost function Abs(): State
      reads this
    {
      State(routes, rti, buckets)
    }

    /** The invariant of the routes and the index. */
    ghost predicate Valid()
      reads this
    {
      Inv(Abs())
    }

    constructor ()
      ensures Abs() == Init && sent == [] && Valid()
    {
      routes, rti, buckets, sent := [], None, map[], [];
    }

    method SendTo(to: Addr, data: seq<Byte>)
      modifies this`sent
      ensures sent == old(sent) + [Datagram(to, data)]
    {
      sent := sent + [Datagram(to, data)];
    }

    // ---------- the index ----------

    method FindByAddrAndCallno(addr: Addr, callno: nat) returns (found: Option<(Rid, Side)>)
      ensures found == FindLeg(Abs(), addr, callno)
    {
      var list := if callno in buckets then buckets[callno] else [];
      var i := 0;
      while i < |list|
        invariant 0 <= i <= |list|
        invariant FindLeg(Abs(), addr, callno) == FindIn(routes, list[i..], addr, callno)
      {
        if list[i] < |routes| {
          var r := routes[list[i]];
          if r.status.Setted? || r.status.Releasing? {
            if r.lAddr == addr && r.lCallno == callno {
              return Some((list[i], Left));
            }
            if r.rAddr == addr && r.rCallno == callno {
              return Some((list[i], Right));
            }
          }
        }
        i := i + 1;
      }
      return None;
    }

    /** One more entry, in one bucket; an entry of a live route with that call number keeps the
        index free of others. */
    method AddRoute(callno: nat, id: Rid)
      modifies this`buckets
      ensures Abs() == AddToIndex(old(Abs()), callno, id)
      ensures Linked(old(Abs()), Abs(), callno, id)
      ensures old(IndexOk(Abs())) && EntryOk(routes, callno, id) ==> IndexOk(Abs())
    {
      AddLinks(Abs(), callno, id);
      if EntryOk(routes, callno, id) && IndexOk(Abs()) {
        AddKeepsIndex(Abs(), callno, id);
      }
      buckets := buckets[callno := [id] + if callno in buckets then buckets[callno] else []];
    }

    /** Unlinks every entry of the bucket whose route has the leg, and no other entry. */
    method DelRoute(addr: Addr, callno: nat)
      modifies this`buckets
      ensures Abs() == DelFromIndex(old(Abs()), addr, callno)
      ensures Unlinked(old(Abs()), Abs(), addr, callno)
    {
      ghost var st := Abs();
      var list := if callno in buckets then buckets[callno] else [];
      var kept: seq<Rid>, i := [], 0;
      assert list[0..] == list;
      while i < |list|
        invariant 0 <= i <= |list| && buckets == old(buckets)
        invariant DropLeg(routes, list, addr, callno) == kept + DropLeg(routes, list[i..], addr, callno)
      {
        DropLegStep(routes, list, i, addr, callno, kept);
        if list[i] < |routes|
           && ((routes[list[i]].lAddr == addr && routes[list[i]].lCallno == callno)
               || (routes[list[i]].rAddr == addr && routes[list[i]].rCallno == callno)) {
        } else {
          kept := kept + [list[i]];
        }
        i := i + 1;
      }
      assert list[i..] == [] && kept == DropLeg(routes, list, addr, callno);
      buckets := buckets[callno := kept];
      assert Abs() == DelFromIndex(st, addr, callno);
      DelUnlinks(st, addr, callno);
    }

    method FindByToken(token: seq<Byte>) returns (found: Option<Rid>)
      ensures found == FindToken(Abs(), token)
    {
      if rti.Some? && rti.value < |routes| && routes[rti.value].token <= token {
        return rti;
      }
      return None;
    }

    // ---------- one datagram ----------

    method ForwardFrame(addr: Addr, callno: nat, buf: seq<Byte>) returns (found: Option<(Rid, Side)>)
      modifies this`sent
      ensures found == FindLeg(Abs(), addr, callno)
      ensures sent == old(sent) + Forward(Abs(), addr, callno, buf)
    {
      found := FindByAddrAndCallno(addr, callno);
      if found.Some? {
        var r := routes[found.value.0];
        if found.value.1 == Left {
          SendTo(r.rAddr, buf);
        } else {
          SendTo(r.lAddr, buf);
        }
      }
    }

    method AnnounceEvent(id: Rid, event: Byte)
      requires id < |routes|
      modifies this`sent
      ensures sent == old(sent) + Announce(routes[id], event)
    {
      var r := routes[id];
      SendTo(r.rAddr, r.lPkt + Event(event));
      SendTo(r.lAddr, r.rPkt + Event(event));
    }

    method TxCntFrame(addr: Addr, callno: nat, buf: seq<Byte>, token: seq<Byte>)
      requires Valid()
      modifies this
      ensures Abs() == OnTxCnt(old(Abs()), addr, callno, buf, token).st
      ensures sent == old(sent) + OnTxCnt(old(Abs()), addr, callno, buf, token).sent
      ensures Valid() && AllChanged(old(Abs()), Abs())
    {
      TxCntKeeps(Abs(), addr, callno, buf, token);
      TxCntChanges(Abs(), addr, callno, buf, token);
      var found := FindByToken(token);
      if found.None? {
        var id := |routes|;
        routes := routes + [Route(token, addr, NO_ADDR, callno, 0, Setting, 0, buf, [])];
        rti := Some(id);
        AddRoute(callno, id);
      } else {
        var id := found.value;
        var r := routes[id];
        if r.status.Setting? && r.lCallno == callno {
          routes := routes[id := r.(lAddr := addr, lPkt := buf)];
        } else if r.status.Setting? {
          routes := routes[id := r.(rCallno := callno, rAddr := addr, status := Setted)];
          SendTo(r.lAddr, buf);
          SendTo(addr, r.lPkt);
          AddRoute(callno, id);
        }
      }
    }

    method HeartbeatFrame(addr: Addr, callno: nat, buf: seq<Byte>, token: seq<Byte>)
      requires Valid()
      modifies this
      ensures Abs() == OnHeartbeat(old(Abs()), addr, callno, buf, token).st
      ensures sent == old(sent) + OnHeartbeat(old(Abs()), addr, callno, buf, token).sent
      ensures Valid() && AllChanged(old(Abs()), Abs())
    {
      HeartbeatKeeps(Abs(), addr, callno, buf, token);
      HeartbeatChanges(Abs(), addr, callno, buf, token);
      var found := FindByToken(token);
      if found.None? {
        return;
      }
      var id := found.value;
      var r := routes[id].(txstatus := 0);
      routes := routes[id := r];
      if r.lCallno == callno {
        if r.lAddr != addr {
          r := r.(lAddr := addr);
          routes := routes[id := r];
          if r.status.Setted? || r.status.Natted? || r.status.P2ped? {
            AnnounceEvent(id, EVENT_RS);
            routes := routes[id := r.(status := Setted)];
          }
        } else {
          routes := routes[id := r.(lPkt := buf)];
          SendTo(r.rAddr, buf + Annotation(addr, HeartbeatEvent(r)));
        }
      } else {
        if r.rAddr != addr {
          r := r.(rAddr := addr);
          routes := routes[id := r];
          if r.status.Setted? || r.status.Natted? || r.status.P2ped? {
            AnnounceEvent(id, EVENT_RS);
            routes := routes[id := r.(status := Setted)];
          }
        } else {
          routes := routes[id := r.(rPkt := buf)];
          SendTo(r.lAddr, buf + Annotation(addr, HeartbeatEvent(r)));
        }
      }
    }

    method TxReadyFrame(addr: Addr, callno: nat)
      requires Valid()
      modifies this
      ensures Abs() == OnTxReady(old(Abs()), addr, callno).st
      ensures sent == old(sent) + OnTxReady(old(Abs()), addr, callno).sent
      ensures Valid() && AllChanged(old(Abs()), Abs())
    {
      TxReadyKeeps(Abs(), addr, callno);
      TxReadyChanges(Abs(), addr, callno);
      var found := FindByAddrAndCallno(addr, callno);
      if found.None? {
        return;
      }
      var (id, side) := found.value;
      var r := routes[id];
      if r.status.Setted? {
        r := Mark(r, side);
      }
      routes := routes[id := r];
      if r.txstatus == 3 {
        AnnounceEvent(id, EVENT_NAT);
        routes := routes[id := r.(status := Natted)];
      }
      if r.txstatus == 12 {
        AnnounceEvent(id, EVENT_P2P);
        routes := routes[id := r.(status := P2ped)];
      }
    }

    method OtherFrame(addr: Addr, callno: nat, buf: seq<Byte>, command: Command)
      requires Valid()
      modifies this
      ensures Abs() == OnOther(old(Abs()), addr, callno, buf, command).st
      ensures sent == old(sent) + OnOther(old(Abs()), addr, callno, buf, command).sent
      ensures Valid() && AllChanged(old(Abs()), Abs())
    {
      OtherKeeps(Abs(), addr, callno, buf, command);
      OtherChanges(Abs(), addr, callno, buf, command);
      var found := ForwardFrame(addr, callno, buf);
      if found.Some? && (command.Hangup? || command.TxRej?) {
        var id := found.value.0;
        var r := routes[id];
        routes := routes[id := r.(status := if command.Hangup? then Releasing else Released)];
        DelRoute(r.lAddr, r.lCallno);
        DelRoute(r.rAddr, r.rCallno);
      }
    }

    method FullFrame(addr: Addr, buf: seq<Byte>)
      requires Valid() && |buf| >= MINI_HEADER
      modifies this
      ensures Abs() == OnFull(old(Abs()), addr, buf).st
      ensures sent == old(sent) + OnFull(old(Abs()), addr, buf).sent
    {
      if |buf| < FULL_HEADER {
        return;
      }
      var callno := CallNo(buf, 0);
      var command := CommandOf(buf);
      if command.Hangup? || command.TxRej? || command.Other? {
        OtherFrame(addr, callno, buf, command);
        return;
      }
      var ies := ParseIes(buf[FULL_HEADER..]);
      if ies.None? {
        return;
      }
      if command.TxReady? {
        TxReadyFrame(addr, callno);
        return;
      }
      var token := CString(ies.value.token);
      if token == [] {
        return;
      }
      if command.TxCnt? {
        TxCntFrame(addr, callno, buf, token);
      } else {
        HeartbeatFrame(addr, callno, buf, token);
      }
    }

    /** The branches of process_udp. */
    method Dispatch(addr: Addr, buf: seq<Byte>)
      requires Valid()
      modifies this
      ensures Abs() == Receive(old(Abs()), addr, buf).st
      ensures sent == old(sent) + Receive(old(Abs()), addr, buf).sent
    {
      if |buf| < MINI_HEADER {
        return;
      }
      if IsVideo(buf) {
        if |buf| < VIDEO_HEADER {
          return;
        }
        var _ := ForwardFrame(addr, CallNo(buf, 2), buf);
      }
      if IsFull(buf) {
        FullFrame(addr, buf);
      } else {
        var _ := ForwardFrame(addr, CallNo(buf, 0), buf);
      }
    }

    /** Handles one datagram exactly as the state machine says. The invariant is kept, routes
        change only as the rules of their status allow, and every change is told to both legs. */
    method ProcessUdp(addr: Addr, buf: seq<Byte>)
      requires Valid()
      modifies this
      ensures Abs() == Receive(old(Abs()), addr, buf).st
      ensures sent == old(sent) + Receive(old(Abs()), addr, buf).sent
      ensures Valid() && Faithful(old(Abs()), addr, buf, Abs(), sent[|old(sent)|..])
    {
      ghost var st, before := Abs(), sent;
      Dispatch(addr, buf);
      assert sent[|before|..] == Receive(st, addr, buf).sent;
      ReceiveKeeps(st, addr, buf);
      ReceiveChanges(st, addr, buf);
      ChangesAreAnnounced(st, addr, buf);
    }
  }
}
