/**
 What holds of the relay's routes after any run of received datagrams.
 */
module RelaySafety {
  import opened Basics
  import opened RelayFrames
  import opened RelayRoutes

  datatype Input = Input(addr: Addr, buf: seq<Byte>)

  /** The state after a run of datagrams, oldest first. */
  function After(ins: seq<Input>): State {
    if ins == [] then Init
    else var last := ins[|ins| - 1]; Receive(After(ins[..|ins| - 1]), last.addr, last.buf).st
  }

  predicate Gone(s: Status) {
    s.Releasing? || s.Released?
  }

  /** The bits of TXREADY never mix the two kinds, and say how the legs are placed. */
  predicate RouteOk(r: Route) {
    && r.txstatus in {0, 1, 2, 3, 4, 8, 12}
    && (r.txstatus in {1, 2, 3} ==> r.lAddr.ip != r.rAddr.ip)
    && (r.txstatus in {4, 8, 12} ==> r.lAddr.ip == r.rAddr.ip)
    && (r.status.Setting? ==> r.txstatus == 0)
    && (r.status.Natted? ==> r.lAddr.ip != r.rAddr.ip && r.txstatus in {0, 3})
    && (r.status.P2ped? ==> r.lAddr.ip == r.rAddr.ip && r.txstatus in {0, 12})
    && (r.status.Setted? ==> r.txstatus !in {3, 12})
    && (!r.status.Setting? ==> r.lCallno != r.rCallno)
  }

  predicate EntryOk(routes: seq<Route>, c: nat, id: Rid) {
    && id < |routes|
    && !Gone(routes[id].status)
    && (routes[id].lCallno == c || (routes[id].rCallno == c && !routes[id].status.Setting?))
  }

  ghost predicate RoutesOk(st: State) {
    forall i :: 0 <= i < |st.routes| ==> RouteOk(st.routes[i])
  }

  ghost predicate IndexOk(st: State) {
    forall c, id {:trigger id in Bucket(st, c)} :: id in Bucket(st, c) ==> EntryOk(st.routes, c, id)
  }

  ghost predicate Inv(st: State) {
    RoutesOk(st) && IndexOk(st)
  }

  lemma DropLegMembers(routes: seq<Route>, ids: seq<Rid>, addr: Addr, callno: nat, id: Rid)
    ensures multiset(DropLeg(routes, ids, addr, callno))[id]
         == if HasLeg(routes, id, addr, callno) then 0 else multiset(ids)[id]
  {
    if ids != [] {
      assert ids == [ids[0]] + ids[1..];
    }
  }

  lemma BucketAfterDel(st: State, addr: Addr, callno: nat, c: nat, id: Rid)
    ensures multiset(Bucket(DelFromIndex(st, addr, callno), c))[id]
         == if c == callno && HasLeg(st.routes, id, addr, callno) then 0 else multiset(Bucket(st, c))[id]
  {
    DropLegMembers(st.routes, Bucket(st, callno), addr, callno, id);
  }

  lemma BucketAfterAdd(st: State, callno: nat, new_: Rid, c: nat, id: Rid)
    ensures multiset(Bucket(AddToIndex(st, callno, new_), c))[id]
         == multiset(Bucket(st, c))[id] + if c == callno && id == new_ then 1 else 0
  {
  }

  // ---------- each datagram keeps the invariant ----------

  lemma FoundIsSetted(st: State, addr: Addr, callno: nat)
    requires Inv(st)
    ensures var f := FindLeg(st, addr, callno); f.Some? ==> st.routes[f.value.0].status == Setted
  {
    var f := FindLeg(st, addr, callno);
    if f.Some? {
      assert f.value.0 in Bucket(st, callno);
    }
  }

  lemma TxCntKeeps(st: State, addr: Addr, callno: nat, buf: seq<Byte>, token: seq<Byte>)
    requires Inv(st)
    ensures Inv(OnTxCnt(st, addr, callno, buf, token).st)
  {
    var q := OnTxCnt(st, addr, callno, buf, token).st;
    forall c, id | id in Bucket(q, c)
      ensures EntryOk(q.routes, c, id)
    {
      assert id in Bucket(st, c) || c == callno;
    }
  }

  lemma HeartbeatKeeps(st: State, addr: Addr, callno: nat, buf: seq<Byte>, token: seq<Byte>)
    requires Inv(st)
    ensures Inv(OnHeartbeat(st, addr, callno, buf, token).st)
  {
    var q := OnHeartbeat(st, addr, callno, buf, token).st;
    forall c, id | id in Bucket(q, c)
      ensures EntryOk(q.routes, c, id)
    {
      assert id in Bucket(st, c);
    }
  }

  lemma TxReadyKeeps(st: State, addr: Addr, callno: nat)
    requires Inv(st)
    ensures Inv(OnTxReady(st, addr, callno).st)
  {
    FoundIsSetted(st, addr, callno);
    var q := OnTxReady(st, addr, callno).st;
    forall c, id | id in Bucket(q, c)
      ensures EntryOk(q.routes, c, id)
    {
      assert id in Bucket(st, c);
    }
  }

  lemma ReleaseKeeps(st: State, id: Rid, status: Status)
    requires Inv(st) && id < |st.routes| && st.routes[id].status == Setted && Gone(status)
    ensures Inv(Release(st, id, status))
  {
    var r := st.routes[id];
    var st1 := WithRoute(st, id, r.(status := status));
    var st2 := DelFromIndex(st1, r.lAddr, r.lCallno);
    var q := Release(st, id, status);
    forall c, x | x in Bucket(q, c)
      ensures EntryOk(q.routes, c, x)
    {
      assert multiset(Bucket(q, c))[x] > 0;
      BucketAfterDel(st2, r.rAddr, r.rCallno, c, x);
      BucketAfterDel(st1, r.lAddr, r.lCallno, c, x);
      assert x in Bucket(st, c);
    }
  }

  lemma OtherKeeps(st: State, addr: Addr, callno: nat, buf: seq<Byte>, command: Command)
    requires Inv(st)
    ensures Inv(OnOther(st, addr, callno, buf, command).st)
  {
    FoundIsSetted(st, addr, callno);
    var f := FindLeg(st, addr, callno);
    if f.Some? {
      match command
      case Hangup => ReleaseKeeps(st, f.value.0, Releasing);
      case TxRej => ReleaseKeeps(st, f.value.0, Released);
      case _ =>
    }
  }

  lemma ReceiveKeeps(st: State, addr: Addr, buf: seq<Byte>)
    requires Inv(st)
    ensures Inv(Receive(st, addr, buf).st)
  {
    if |buf| >= FULL_HEADER && IsFull(buf) {
      var callno := CallNo(buf, 0);
      var body := buf[FULL_HEADER..];
      match CommandOf(buf)
      case TxCnt =>
        if Token(body).Some? {
          TxCntKeeps(st, addr, callno, buf, Token(body).value);
        }
      case Heartbeat =>
        if Token(body).Some? {
          HeartbeatKeeps(st, addr, callno, buf, Token(body).value);
        }
      case TxReady => TxReadyKeeps(st, addr, callno);
      case _ => OtherKeeps(st, addr, callno, buf, CommandOf(buf));
    }
  }

  lemma {:induction false} AfterKeeps(ins: seq<Input>)
    ensures Inv(After(ins))
  {
    if ins != [] {
      var last := ins[|ins| - 1];
      AfterKeeps(ins[..|ins| - 1]);
      ReceiveKeeps(After(ins[..|ins| - 1]), last.addr, last.buf);
    }
  }

  // ---------- what one datagram may do to a route ----------

  /** Release is for good, legs keep their call numbers, a leg that moves takes a connected
      route back to SETTED with its TXREADY bits cleared, and only the two full sets of
      bits take a route out of SETTED to NATTED or P2PED. */
  predicate Changed(r: Route, r': Route) {
    && (Gone(r.status) ==> r'.status == r.status)
    && r'.token == r.token && r'.lCallno == r.lCallno
    && (!r.status.Setting? ==> r'.rCallno == r.rCallno && !r'.status.Setting?)
    && (Connected(r.status) && (r'.lAddr != r.lAddr || r'.rAddr != r.rAddr) ==> r'.status.Setted? && r'.txstatus == 0)
    && (r'.status != r.status && r'.status.Natted? ==> r.status.Setted? && r'.txstatus == 3)
    && (r'.status != r.status && r'.status.P2ped? ==> r.status.Setted? && r'.txstatus == 12)
  }

  ghost predicate AllChanged(st: State, st': State) {
    |st.routes| <= |st'.routes| && forall i :: 0 <= i < |st.routes| ==> Changed(st.routes[i], st'.routes[i])
  }

  lemma TxCntChanges(st: State, addr: Addr, callno: nat, buf: seq<Byte>, token: seq<Byte>)
    ensures AllChanged(st, OnTxCnt(st, addr, callno, buf, token).st)
  {
  }

  lemma HeartbeatChanges(st: State, addr: Addr, callno: nat, buf: seq<Byte>, token: seq<Byte>)
    ensures AllChanged(st, OnHeartbeat(st, addr, callno, buf, token).st)
  {
  }

  lemma TxReadyChanges(st: State, addr: Addr, callno: nat)
    requires Inv(st)
    ensures AllChanged(st, OnTxReady(st, addr, callno).st)
  {
    FoundIsSetted(st, addr, callno);
  }

  lemma OtherChanges(st: State, addr: Addr, callno: nat, buf: seq<Byte>, command: Command)
    requires Inv(st)
    ensures AllChanged(st, OnOther(st, addr, callno, buf, command).st)
  {
    FoundIsSetted(st, addr, callno);
  }

  lemma ReceiveChanges(st: State, addr: Addr, buf: seq<Byte>)
    requires Inv(st)
    ensures AllChanged(st, Receive(st, addr, buf).st)
  {
    if |buf| >= FULL_HEADER && IsFull(buf) {
      var callno := CallNo(buf, 0);
      var body := buf[FULL_HEADER..];
      match CommandOf(buf)
      case TxCnt =>
        if Token(body).Some? {
          TxCntChanges(st, addr, callno, buf, Token(body).value);
        }
      case Heartbeat =>
        if Token(body).Some? {
          HeartbeatChanges(st, addr, callno, buf, Token(body).value);
        }
      case TxReady => TxReadyChanges(st, addr, callno);
      case _ => OtherChanges(st, addr, callno, buf, CommandOf(buf));
    }
  }

  lemma {:induction false} ReleaseIsFinal(ins: seq<Input>, more: seq<Input>, i: Rid)
    requires i < |After(ins).routes| && Gone(After(ins).routes[i].status)
    ensures i < |After(ins + more).routes|
    ensures After(ins + more).routes[i].status == After(ins).routes[i].status
    ensures forall c :: i !in Bucket(After(ins + more), c)
  {
    var all := ins + more;
    if more == [] {
      assert all == ins;
    } else {
      var rest := more[..|more| - 1];
      assert all[..|all| - 1] == ins + rest;
      ReleaseIsFinal(ins, rest, i);
      AfterKeeps(ins + rest);
      ReceiveChanges(After(ins + rest), all[|all| - 1].addr, all[|all| - 1].buf);
    }
    AfterKeeps(all);
  }

  // ---------- what releases a route ----------

  /** A full frame with the command HANGUP or TXREJ. */
  predicate IsRelease(buf: seq<Byte>) {
    |buf| >= FULL_HEADER && IsFull(buf) && (CommandOf(buf).Hangup? || CommandOf(buf).TxRej?)
  }

  lemma OtherReleases(st: State, addr: Addr, callno: nat, buf: seq<Byte>, command: Command, i: Rid)
    requires Inv(st) && i < |st.routes| && !Gone(st.routes[i].status)
    ensures var q := OnOther(st, addr, callno, buf, command).st;
            var f := FindLeg(st, addr, callno);
            && |q.routes| == |st.routes|
            && (Gone(q.routes[i].status) <==>
                (command.Hangup? || command.TxRej?) && f.Some? && f.value.0 == i && st.routes[i].status.Setted?)
  {
    FoundIsSetted(st, addr, callno);
  }

  lemma TxCntReleasesNone(st: State, addr: Addr, callno: nat, buf: seq<Byte>, token: seq<Byte>, i: Rid)
    requires i < |st.routes| && !Gone(st.routes[i].status)
    ensures var q := OnTxCnt(st, addr, callno, buf, token).st; i < |q.routes| && !Gone(q.routes[i].status)
  {
  }

  lemma HeartbeatReleasesNone(st: State, addr: Addr, callno: nat, buf: seq<Byte>, token: seq<Byte>, i: Rid)
    requires i < |st.routes| && !Gone(st.routes[i].status)
    ensures var q := OnHeartbeat(st, addr, callno, buf, token).st; i < |q.routes| && !Gone(q.routes[i].status)
  {
  }

  lemma TxReadyReleasesNone(st: State, addr: Addr, callno: nat, i: Rid)
    requires i < |st.routes| && !Gone(st.routes[i].status)
    ensures var q := OnTxReady(st, addr, callno).st; i < |q.routes| && !Gone(q.routes[i].status)
  {
  }

  lemma ReceiveReleases(st: State, addr: Addr, buf: seq<Byte>, i: Rid)
    requires Inv(st) && i < |st.routes| && !Gone(st.routes[i].status)
    ensures var q := Receive(st, addr, buf).st;
            && i < |q.routes|
            && (Gone(q.routes[i].status) <==>
                && IsRelease(buf) && st.routes[i].status.Setted?
                && var f := FindLeg(st, addr, CallNo(buf, 0)); f.Some? && f.value.0 == i)
  {
    if |buf| >= FULL_HEADER && IsFull(buf) {
      var callno := CallNo(buf, 0);
      var body := buf[FULL_HEADER..];
      match CommandOf(buf)
      case TxCnt =>
        if Token(body).Some? {
          TxCntReleasesNone(st, addr, callno, buf, Token(body).value, i);
        }
      case Heartbeat =>
        if Token(body).Some? {
          HeartbeatReleasesNone(st, addr, callno, buf, Token(body).value, i);
        }
      case TxReady => TxReadyReleasesNone(st, addr, callno, i);
      case _ => OtherReleases(st, addr, callno, buf, CommandOf(buf), i);
    }
  }

  /** A datagram releases a route if and only if it is a HANGUP or TXREJ whose sender and call
      number find that route, and the route is SETTED: one that is NATTED or P2PED is released
      by no frame until a moved leg has taken it back to SETTED. */
  lemma ReleasedOnlyWhenSetted(ins: seq<Input>, last: Input, i: Rid)
    requires i < |After(ins).routes| && !Gone(After(ins).routes[i].status)
    ensures i < |After(ins + [last]).routes|
    ensures var st := After(ins);
            Gone(After(ins + [last]).routes[i].status) <==>
              && IsRelease(last.buf) && st.routes[i].status.Setted?
              && var f := FindLeg(st, last.addr, CallNo(last.buf, 0)); f.Some? && f.value.0 == i
  {
    var all := ins + [last];
    assert all[..|all| - 1] == ins;
    AfterKeeps(ins);
    ReceiveReleases(After(ins), last.addr, last.buf, i);
  }

  // ---------- both legs were ready ----------

  /** An observer that watches the datagrams: from which legs of a route a TXREADY was
      accepted since the last heartbeat of the route. */
  type History = map<Rid, set<Side>>

  function ReadyLegs(h: History, i: Rid): set<Side> {
    if i in h then h[i] else {}
  }

  function ObserveHeartbeat(st: State, h: History, token: seq<Byte>): History {
    match FindToken(st, token)
    case None => h
    case Some(id) => h[id := {}]
  }

  function ObserveTxReady(st: State, h: History, addr: Addr, callno: nat): History {
    match FindLeg(st, addr, callno)
    case None => h
    case Some((id, side)) => h[id := ReadyLegs(h, id) + {side}]
  }

  function Observe(st: State, h: History, addr: Addr, buf: seq<Byte>): History {
    if |buf| < FULL_HEADER || !IsFull(buf) then h
    else
      var body := buf[FULL_HEADER..];
      match CommandOf(buf)
      case Heartbeat => if Token(body).None? then h else ObserveHeartbeat(st, h, Token(body).value)
      case TxReady => if Split(body).None? then h else ObserveTxReady(st, h, addr, CallNo(buf, 0))
      case _ => h
  }

  function HistoryOf(ins: seq<Input>): History {
    if ins == [] then map[]
    else
      var before, last := ins[..|ins| - 1], ins[|ins| - 1];
      Observe(After(before), HistoryOf(before), last.addr, last.buf)
  }

  ghost predicate HistoryMatches(st: State, h: History) {
    && (forall i :: i in h ==> i < |st.routes|)
    && (forall i :: 0 <= i < |st.routes| ==>
          && (Left in ReadyLegs(h, i) <==> st.routes[i].txstatus in {1, 3, 4, 12})
          && (Right in ReadyLegs(h, i) <==> st.routes[i].txstatus in {2, 3, 8, 12}))
  }

  lemma TxCntObserved(st: State, h: History, addr: Addr, callno: nat, buf: seq<Byte>, token: seq<Byte>)
    requires HistoryMatches(st, h)
    ensures HistoryMatches(OnTxCnt(st, addr, callno, buf, token).st, h)
  {
  }

  lemma HeartbeatObserved(st: State, h: History, addr: Addr, callno: nat, buf: seq<Byte>, token: seq<Byte>)
    requires HistoryMatches(st, h)
    ensures HistoryMatches(OnHeartbeat(st, addr, callno, buf, token).st, ObserveHeartbeat(st, h, token))
  {
  }

  /** Marking a leg ready adds it to the legs that the bits name. */
  lemma MarkAddsLeg(r: Route, side: Side)
    requires RouteOk(r) && r.status.Setted?
    ensures var bits := Mark(r, side).txstatus;
            && (bits in {1, 3, 4, 12} <==> r.txstatus in {1, 3, 4, 12} || side.Left?)
            && (bits in {2, 3, 8, 12} <==> r.txstatus in {2, 3, 8, 12} || side.Right?)
  {
  }

  lemma TxReadyObserved(st: State, h: History, addr: Addr, callno: nat)
    requires Inv(st) && HistoryMatches(st, h)
    ensures HistoryMatches(OnTxReady(st, addr, callno).st, ObserveTxReady(st, h, addr, callno))
  {
    FoundIsSetted(st, addr, callno);
    match FindLeg(st, addr, callno)
    case None =>
    case Some((id, side)) =>
      var q, h' := OnTxReady(st, addr, callno).st, ObserveTxReady(st, h, addr, callno);
      MarkAddsLeg(st.routes[id], side);
      assert q.routes[id].txstatus == Mark(st.routes[id], side).txstatus;
      assert forall i :: 0 <= i < |q.routes| && i != id ==> q.routes[i] == st.routes[i];
      assert ReadyLegs(h', id) == ReadyLegs(h, id) + {side};
  }

  lemma OtherObserved(st: State, h: History, addr: Addr, callno: nat, buf: seq<Byte>, command: Command)
    requires HistoryMatches(st, h)
    ensures HistoryMatches(OnOther(st, addr, callno, buf, command).st, h)
  {
  }

  lemma ObserveMatches(st: State, h: History, addr: Addr, buf: seq<Byte>)
    requires Inv(st) && HistoryMatches(st, h)
    ensures HistoryMatches(Receive(st, addr, buf).st, Observe(st, h, addr, buf))
  {
    if |buf| >= FULL_HEADER && IsFull(buf) {
      var callno := CallNo(buf, 0);
      var body := buf[FULL_HEADER..];
      match CommandOf(buf)
      case TxCnt =>
        if Token(body).Some? {
          TxCntObserved(st, h, addr, callno, buf, Token(body).value);
        }
      case Heartbeat =>
        if Token(body).Some? {
          HeartbeatObserved(st, h, addr, callno, buf, Token(body).value);
        }
      case TxReady => TxReadyObserved(st, h, addr, callno);
      case _ => OtherObserved(st, h, addr, callno, buf, CommandOf(buf));
    }
  }

  lemma {:induction false} HistoryOfMatches(ins: seq<Input>)
    ensures HistoryMatches(After(ins), HistoryOf(ins))
  {
    if ins != [] {
      var before, last := ins[..|ins| - 1], ins[|ins| - 1];
      HistoryOfMatches(before);
      AfterKeeps(before);
      ObserveMatches(After(before), HistoryOf(before), last.addr, last.buf);
    }
  }

  /** A route becomes NATTED or P2PED only when both legs have sent TXREADY since its last
      heartbeat, NATTED when their IP addresses differ and P2PED when they are equal. */
  lemma EnteredWhenBothReady(ins: seq<Input>, last: Input, i: Rid)
    requires i < |After(ins).routes|
    ensures i < |After(ins + [last]).routes|
    ensures var r, r' := After(ins).routes[i], After(ins + [last]).routes[i];
            r'.status != r.status && (r'.status.Natted? || r'.status.P2ped?) ==>
              && r.status.Setted?
              && {Left, Right} <= ReadyLegs(HistoryOf(ins + [last]), i)
              && (r'.status.Natted? <==> r'.lAddr.ip != r'.rAddr.ip)
  {
    var all := ins + [last];
    assert all[..|all| - 1] == ins;
    AfterKeeps(ins);
    AfterKeeps(all);
    HistoryOfMatches(all);
    ReceiveChanges(After(ins), last.addr, last.buf);
  }
}
