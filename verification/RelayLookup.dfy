/**
 The index finds what a search of all live routes would find, as long as no two live
 routes share a leg; and what follows for the datagrams that are passed on.
 */
module RelayLookup {
  import opened Basics
  import opened RelayFrames
  import opened RelayRoutes
  import opened RelaySafety

  /** The route has this leg.  A route that is being set up has only its left leg. */
  predicate LegOf(r: Route, addr: Addr, callno: nat) {
    OnSide(r, Left, addr, callno) || (!r.status.Setting? && OnSide(r, Right, addr, callno))
  }

  predicate Share(r: Route, q: Route) {
    LegOf(q, r.lAddr, r.lCallno) || (!r.status.Setting? && LegOf(q, r.rAddr, r.rCallno))
  }

  ghost predicate NoSharing(st: State) {
    forall i, j :: 0 <= i < |st.routes| && 0 <= j < |st.routes| && i != j
                   && !Gone(st.routes[i].status) && !Gone(st.routes[j].status) ==>
                   !Share(st.routes[i], st.routes[j])
  }

  /** Call number 0 is not in use, as the frame format asks. */
  predicate CallnosOk(r: Route) {
    r.lCallno != 0 && (r.status.Setting? <==> r.rCallno == 0)
  }

  /** The route is exactly once in the bucket of each of its legs. */
  predicate IndexedOnce(st: State, i: Rid)
    requires i < |st.routes|
  {
    var r := st.routes[i];
    && multiset(Bucket(st, r.lCallno))[i] == 1
    && (!r.status.Setting? ==> multiset(Bucket(st, r.rCallno))[i] == 1)
  }

  ghost predicate Complete(st: State) {
    forall i :: 0 <= i < |st.routes| ==>
                  CallnosOk(st.routes[i]) && (!Gone(st.routes[i].status) ==> IndexedOnce(st, i))
  }

  lemma NotInBucket(st: State, c: nat, id: Rid)
    requires Inv(st) && !EntryOk(st.routes, c, id)
    ensures multiset(Bucket(st, c))[id] == 0
  {
    assert id !in Bucket(st, c);
  }

  lemma AddComplete(st: State, st': State, callno: nat, id: Rid)
    requires Complete(st) && callno != 0 && multiset(Bucket(st, callno))[id] == 0
    requires id < |st'.routes| && st'.buckets == st.buckets && !Gone(st'.routes[id].status)
    requires forall i :: 0 <= i < |st'.routes| && i != id ==> i < |st.routes| && st'.routes[i] == st.routes[i]
    requires CallnosOk(st'.routes[id])
    requires var r := st'.routes[id];
             if r.status.Setting? then r.lCallno == callno
             else r.rCallno == callno && r.lCallno != callno && multiset(Bucket(st, r.lCallno))[id] == 1
    ensures Complete(AddToIndex(st', callno, id))
  {
    var q := AddToIndex(st', callno, id);
    forall i | 0 <= i < |q.routes|
      ensures CallnosOk(q.routes[i]) && (!Gone(q.routes[i].status) ==> IndexedOnce(q, i))
    {
      BucketAfterAdd(st', callno, id, q.routes[i].lCallno, i);
      BucketAfterAdd(st', callno, id, q.routes[i].rCallno, i);
      assert i == id || Gone(st.routes[i].status) || IndexedOnce(st, i);
    }
  }

  lemma TxCntComplete(st: State, addr: Addr, callno: nat, buf: seq<Byte>, token: seq<Byte>)
    requires Inv(st) && Complete(st) && callno != 0
    ensures Complete(OnTxCnt(st, addr, callno, buf, token).st)
  {
    match FindToken(st, token)
    case None =>
      var r := Route(token, addr, NO_ADDR, callno, 0, Setting, 0, buf, []);
      NotInBucket(st, callno, |st.routes|);
      AddComplete(st, State(st.routes + [r], Some(|st.routes|), st.buckets), callno, |st.routes|);
    case Some(id) =>
      var r := st.routes[id];
      if r.status.Setting? && r.lCallno != callno {
        assert IndexedOnce(st, id);
        NotInBucket(st, callno, id);
        AddComplete(st, WithRoute(st, id, r.(rCallno := callno, rAddr := addr, status := Setted)), callno, id);
      } else {
        var q := OnTxCnt(st, addr, callno, buf, token).st;
        assert q.buckets == st.buckets;
        forall i | 0 <= i < |q.routes|
          ensures CallnosOk(q.routes[i]) && (!Gone(q.routes[i].status) ==> IndexedOnce(q, i))
        {
          assert IndexedOnce(st, i) || Gone(st.routes[i].status);
        }
      }
  }

  lemma HeartbeatComplete(st: State, addr: Addr, callno: nat, buf: seq<Byte>, token: seq<Byte>)
    requires Inv(st) && Complete(st)
    ensures Complete(OnHeartbeat(st, addr, callno, buf, token).st)
  {
    var q := OnHeartbeat(st, addr, callno, buf, token).st;
    assert q.buckets == st.buckets;
    forall i | 0 <= i < |q.routes|
      ensures CallnosOk(q.routes[i]) && (!Gone(q.routes[i].status) ==> IndexedOnce(q, i))
    {
      assert IndexedOnce(st, i) || Gone(st.routes[i].status);
    }
  }

  lemma TxReadyComplete(st: State, addr: Addr, callno: nat)
    requires Inv(st) && Complete(st)
    ensures Complete(OnTxReady(st, addr, callno).st)
  {
    FoundIsSetted(st, addr, callno);
    var q := OnTxReady(st, addr, callno).st;
    assert q.buckets == st.buckets;
    forall i | 0 <= i < |q.routes|
      ensures CallnosOk(q.routes[i]) && (!Gone(q.routes[i].status) ==> IndexedOnce(q, i))
    {
      assert IndexedOnce(st, i) || Gone(st.routes[i].status);
    }
  }

  lemma ReleaseComplete(st: State, id: Rid, status: Status)
    requires Inv(st) && Complete(st) && NoSharing(st)
    requires id < |st.routes| && st.routes[id].status == Setted && Gone(status)
    ensures Complete(Release(st, id, status))
  {
    var r := st.routes[id];
    var st1 := WithRoute(st, id, r.(status := status));
    var st2 := DelFromIndex(st1, r.lAddr, r.lCallno);
    var q := Release(st, id, status);
    forall i | 0 <= i < |q.routes|
      ensures CallnosOk(q.routes[i]) && (!Gone(q.routes[i].status) ==> IndexedOnce(q, i))
    {
      if !Gone(q.routes[i].status) {
        assert !Share(r, st.routes[i]) && IndexedOnce(st, i) && CallnosOk(r);
        KeepsEntry(st, st1, st2, r, i, st.routes[i].lCallno);
        KeepsEntry(st, st1, st2, r, i, st.routes[i].rCallno);
      }
    }
  }

  lemma KeepsEntry(st: State, st1: State, st2: State, r: Route, i: Rid, c: nat)
    requires i < |st.routes| && |st1.routes| == |st.routes| && st1.routes[i] == st.routes[i]
    requires st1.buckets == st.buckets && st2 == DelFromIndex(st1, r.lAddr, r.lCallno)
    requires r.status.Setted? && CallnosOk(r) && CallnosOk(st.routes[i]) && !Share(r, st.routes[i])
    ensures multiset(Bucket(DelFromIndex(st2, r.rAddr, r.rCallno), c))[i] == multiset(Bucket(st, c))[i]
  {
    BucketAfterDel(st1, r.lAddr, r.lCallno, c, i);
    BucketAfterDel(st2, r.rAddr, r.rCallno, c, i);
  }

  /** Every TXCNT frame of the run names a call number. */
  predicate CallnoUsed(x: Input) {
    |x.buf| >= FULL_HEADER && IsFull(x.buf) && CommandOf(x.buf).TxCnt? ==> CallNo(x.buf, 0) != 0
  }

  ghost predicate Separate(ins: seq<Input>) {
    && (forall k :: 0 <= k < |ins| ==> CallnoUsed(ins[k]))
    && (forall k :: 0 <= k <= |ins| ==> NoSharing(After(ins[..k])))
  }

  lemma ReceiveComplete(st: State, x: Input)
    requires Inv(st) && Complete(st) && NoSharing(st) && CallnoUsed(x)
    ensures Complete(Receive(st, x.addr, x.buf).st)
  {
    if |x.buf| >= FULL_HEADER && IsFull(x.buf) {
      var callno := CallNo(x.buf, 0);
      var body := x.buf[FULL_HEADER..];
      FoundIsSetted(st, x.addr, callno);
      var f := FindLeg(st, x.addr, callno);
      match CommandOf(x.buf)
      case TxCnt =>
        if Token(body).Some? {
          TxCntComplete(st, x.addr, callno, x.buf, Token(body).value);
        }
      case Heartbeat =>
        if Token(body).Some? {
          HeartbeatComplete(st, x.addr, callno, x.buf, Token(body).value);
        }
      case TxReady => TxReadyComplete(st, x.addr, callno);
      case Hangup =>
        if f.Some? {
          ReleaseComplete(st, f.value.0, Releasing);
        }
      case TxRej =>
        if f.Some? {
          ReleaseComplete(st, f.value.0, Released);
        }
      case Other =>
    }
  }

  /** After any run in which live routes never share a leg, every live route is in the
      index, once for each of its legs. */
  lemma {:induction false} AfterComplete(ins: seq<Input>)
    requires Separate(ins)
    ensures Complete(After(ins))
  {
    if ins != [] {
      var before, last := ins[..|ins| - 1], ins[|ins| - 1];
      forall k | 0 <= k <= |before|
        ensures NoSharing(After(before[..k]))
      {
        assert before[..k] == ins[..k];
      }
      AfterComplete(before);
      AfterKeeps(before);
      assert before[..|before|] == before;
      ReceiveComplete(After(before), last);
    }
  }

  // ---------- the search of all live routes ----------

  predicate Matches(r: Route, side: Side, addr: Addr, callno: nat) {
    r.status.Setted? && OnSide(r, side, addr, callno)
  }

  /** The first live route from i on, and its side, that has the leg and is set up. */
  function ScanFrom(routes: seq<Route>, i: nat, addr: Addr, callno: nat): (f: Option<(Rid, Side)>)
    requires i <= |routes|
    ensures f.Some? ==> i <= f.value.0 < |routes| && Matches(routes[f.value.0], f.value.1, addr, callno)
    ensures f.None? ==> forall k, side :: i <= k < |routes| ==> !Matches(routes[k], side, addr, callno)
    decreases |routes| - i
  {
    if i == |routes| then None
    else if Matches(routes[i], Left, addr, callno) then Some((i, Left))
    else if Matches(routes[i], Right, addr, callno) then Some((i, Right))
    else
      ScanFrom(routes, i + 1, addr, callno)
  }

  lemma {:induction false} FindsMember(routes: seq<Route>, ids: seq<Rid>, id: Rid, side: Side, addr: Addr, callno: nat)
    requires id in ids && id < |routes| && Matches(routes[id], side, addr, callno)
    ensures FindIn(routes, ids, addr, callno).Some?
  {
    if ids[0] != id {
      FindsMember(routes, ids[1..], id, side, addr, callno);
    }
  }

  lemma OneMatch(st: State, i: Rid, a: Side, j: Rid, b: Side, addr: Addr, callno: nat)
    requires Inv(st) && NoSharing(st) && i < |st.routes| && j < |st.routes|
    requires Matches(st.routes[i], a, addr, callno) && Matches(st.routes[j], b, addr, callno)
    ensures i == j && a == b
  {
    assert RouteOk(st.routes[i]);
    assert i == j || !Share(st.routes[i], st.routes[j]);
  }

  /** The lookup through the index returns the same route and the same side as a linear
      search of all live routes. */
  lemma IndexEqualsScan(st: State, addr: Addr, callno: nat)
    requires Inv(st) && NoSharing(st) && Complete(st)
    ensures FindLeg(st, addr, callno) == ScanFrom(st.routes, 0, addr, callno)
  {
    var f, g := FindLeg(st, addr, callno), ScanFrom(st.routes, 0, addr, callno);
    FoundIsSetted(st, addr, callno);
    if g.Some? {
      var (i, side) := g.value;
      assert IndexedOnce(st, i);
      assert i in Bucket(st, callno);
      FindsMember(st.routes, Bucket(st, callno), i, side, addr, callno);
      OneMatch(st, i, side, f.value.0, f.value.1, addr, callno);
    }
    assert f.Some? ==> Matches(st.routes[f.value.0], f.value.1, addr, callno);
  }

  lemma LookupAfterRun(ins: seq<Input>, addr: Addr, callno: nat)
    requires Separate(ins)
    ensures FindLeg(After(ins), addr, callno) == ScanFrom(After(ins).routes, 0, addr, callno)
  {
    AfterKeeps(ins);
    AfterComplete(ins);
    assert ins[..|ins|] == ins;
    IndexEqualsScan(After(ins), addr, callno);
  }

  /** A HANGUP or TXREJ from the leg of a live route releases the route if and only if it is
      SETTED: while it is being set up, NATTED or P2PED the frame is dropped. */
  lemma LegReleasesIffSetted(ins: seq<Input>, last: Input, i: Rid, side: Side)
    requires Separate(ins) && IsRelease(last.buf) && i < |After(ins).routes|
    requires var r := After(ins).routes[i];
             !Gone(r.status) && OnSide(r, side, last.addr, CallNo(last.buf, 0))
    ensures i < |After(ins + [last]).routes|
    ensures Gone(After(ins + [last]).routes[i].status) <==> After(ins).routes[i].status.Setted?
  {
    var st, callno := After(ins), CallNo(last.buf, 0);
    ReleasedOnlyWhenSetted(ins, last, i);
    LookupAfterRun(ins, last.addr, callno);
    if st.routes[i].status.Setted? {
      assert Matches(st.routes[i], side, last.addr, callno);
      var f := ScanFrom(st.routes, 0, last.addr, callno);
      AfterKeeps(ins);
      assert ins[..|ins|] == ins;
      OneMatch(st, i, side, f.value.0, f.value.1, last.addr, callno);
    }
  }

  /** A media frame of a leg that is set up goes to the other leg of its route and nowhere
      else, and what comes from anyone else is dropped. */
  lemma MediaReachesPeer(ins: seq<Input>, addr: Addr, buf: seq<Byte>)
    requires Separate(ins) && |buf| >= MINI_HEADER && !IsFull(buf) && !IsVideo(buf)
    ensures var st := After(ins); var out := Receive(st, addr, buf);
            && out.st == st
            && var f := ScanFrom(st.routes, 0, addr, CallNo(buf, 0));
            && (f.None? ==> out.sent == [])
            && (f.Some? ==> var r := st.routes[f.value.0];
                            out.sent == [Datagram(if f.value.1.Left? then r.rAddr else r.lAddr, buf)])
  {
    LookupAfterRun(ins, addr, CallNo(buf, 0));
  }

  lemma NobodyOwnsZero(ins: seq<Input>, addr: Addr)
    requires Separate(ins)
    ensures FindLeg(After(ins), addr, 0).None?
  {
    AfterComplete(ins);
    LookupAfterRun(ins, addr, 0);
  }

  /** A video frame is passed on a second time exactly when the sender also owns a leg with
      call number 0; while call numbers are in use as they should be, that never happens. */
  lemma VideoPassedOnce(ins: seq<Input>, addr: Addr, buf: seq<Byte>)
    requires |buf| >= VIDEO_HEADER && IsVideo(buf)
    ensures var st := After(ins); var sent := Receive(st, addr, buf).sent;
            && |Forward(st, addr, CallNo(buf, 2), buf)| <= 1
            && (sent == Forward(st, addr, CallNo(buf, 2), buf) <==> FindLeg(st, addr, 0).None?)
    ensures Separate(ins) ==> FindLeg(After(ins), addr, 0).None?
  {
    var st := After(ins);
    assert CallNo(buf, 0) == 0;
    assert |Receive(st, addr, buf).sent|
        == |Forward(st, addr, CallNo(buf, 2), buf)| + if FindLeg(st, addr, 0).Some? then 1 else 0;
    if Separate(ins) {
      NobodyOwnsZero(ins, addr);
    }
  }

  // ---------- runs of a few datagrams ----------

  /** A full frame with a command and a call number. */
  predicate IsCommand(x: Input, callno: nat, command: Command) {
    && |x.buf| >= 12 && IsFull(x.buf) && !IsVideo(x.buf)
    && CommandOf(x.buf) == command && CallNo(x.buf, 0) == callno
  }

  /** A TXCNT frame with a token, and a TXREADY frame with a well formed body. */
  predicate IsTxCnt(x: Input, callno: nat, token: seq<Byte>) {
    IsCommand(x, callno, TxCnt) && Token(x.buf[FULL_HEADER..]) == Some(token)
  }

  predicate IsTxReady(x: Input, callno: nat) {
    IsCommand(x, callno, TxReady) && Split(x.buf[FULL_HEADER..]).Some?
  }

  lemma AfterPush(ins: seq<Input>, x: Input)
    ensures After(ins + [x]) == Receive(After(ins), x.addr, x.buf).st
  {
    assert (ins + [x])[..|ins|] == ins;
  }

  /** The only route, between the senders of x and y. */
  function Pair(x: Input, y: Input, c: nat, d: nat, token: seq<Byte>, status: Status, bits: bv8): State {
    State([Route(token, x.addr, y.addr, c, d, status, bits, x.buf, [])], Some(0), map[c := [0], d := [0]])
  }

  /** The only route, while it has one leg. */
  function Single(x: Input, c: nat, token: seq<Byte>): State {
    State([Route(token, x.addr, NO_ADDR, c, 0, Setting, 0, x.buf, [])], Some(0), map[c := [0]])
  }

  lemma FirstTxCnt(x: Input, c: nat, token: seq<Byte>)
    requires IsTxCnt(x, c, token)
    ensures Receive(Init, x.addr, x.buf).st == Single(x, c, token)
  {
    assert Init.routes + Single(x, c, token).routes == Single(x, c, token).routes;
    assert [0] + Bucket(Init, c) == [0];
  }

  lemma SecondTxCnt(x: Input, y: Input, c: nat, d: nat, token: seq<Byte>)
    requires IsTxCnt(y, d, token) && c != d
    ensures Receive(Single(x, c, token), y.addr, y.buf).st == Pair(x, y, c, d, token, Setted, 0)
  {
    var st := Single(x, c, token);
    assert FindToken(st, token) == Some(0) && [0] + Bucket(st, d) == [0];
  }

  lemma PairIsMade(x: Input, y: Input, c: nat, d: nat, token: seq<Byte>)
    requires IsTxCnt(x, c, token) && IsTxCnt(y, d, token) && c != d
    ensures After([] + [x] + [y]) == Pair(x, y, c, d, token, Setted, 0)
  {
    AfterPush([], x);
    FirstTxCnt(x, c, token);
    AfterPush([] + [x], y);
    SecondTxCnt(x, y, c, d, token);
  }

  lemma BothFound(x: Input, y: Input, c: nat, d: nat, token: seq<Byte>, bits: bv8)
    requires c != d
    ensures var st := Pair(x, y, c, d, token, Setted, bits);
            FindLeg(st, x.addr, c) == Some((0, Left)) && FindLeg(st, y.addr, d) == Some((0, Right))
  {
    var st := Pair(x, y, c, d, token, Setted, bits);
    assert Bucket(st, c) == [0] && Bucket(st, d) == [0];
  }

  /** Two TXCNT datagrams with the same token, the first with call number 0, make a route whose
      left leg is found under 0; a video frame of that leg is then passed on once more. */
  lemma ZeroIsFound(x: Input, y: Input, callno: nat, token: seq<Byte>, buf: seq<Byte>)
    requires IsTxCnt(x, 0, token) && IsTxCnt(y, callno, token) && callno != 0
    requires |buf| >= VIDEO_HEADER && IsVideo(buf)
    ensures var st := After([] + [x] + [y]);
            && FindLeg(st, x.addr, 0) == Some((0, Left))
            && Receive(st, x.addr, buf).sent
               == Forward(st, x.addr, CallNo(buf, 2), buf) + [Datagram(y.addr, buf)]
  {
    PairIsMade(x, y, 0, callno, token);
    BothFound(x, y, 0, callno, token, 0);
  }

  /** The status that two TXREADYs lead to, and the bits of the first and of both. */
  function Joined(x: Input, y: Input): Status {
    if x.addr.ip != y.addr.ip then Natted else P2ped
  }

  function FirstBit(x: Input, y: Input): bv8 {
    if x.addr.ip != y.addr.ip then 1 else 4
  }

  function BothBits(x: Input, y: Input): bv8 {
    if x.addr.ip != y.addr.ip then 3 else 12
  }

  lemma FirstReady(x: Input, y: Input, c: nat, d: nat, token: seq<Byte>, r: Input)
    requires c != d && IsTxReady(r, c) && r.addr == x.addr
    ensures Receive(Pair(x, y, c, d, token, Setted, 0), r.addr, r.buf).st
         == Pair(x, y, c, d, token, Setted, FirstBit(x, y))
  {
    BothFound(x, y, c, d, token, 0);
    assert Mark(Pair(x, y, c, d, token, Setted, 0).routes[0], Left).txstatus == FirstBit(x, y);
  }

  lemma SecondReady(x: Input, y: Input, c: nat, d: nat, token: seq<Byte>, r: Input)
    requires c != d && IsTxReady(r, d) && r.addr == y.addr
    ensures Receive(Pair(x, y, c, d, token, Setted, FirstBit(x, y)), r.addr, r.buf).st
         == Pair(x, y, c, d, token, Joined(x, y), BothBits(x, y))
  {
    BothFound(x, y, c, d, token, FirstBit(x, y));
    assert Mark(Pair(x, y, c, d, token, Setted, FirstBit(x, y)).routes[0], Right).txstatus == BothBits(x, y);
  }

  lemma ReleaseDropped(x: Input, y: Input, c: nat, d: nat, token: seq<Byte>, z: Input)
    requires c != d && IsRelease(z.buf)
    ensures var st := Pair(x, y, c, d, token, Joined(x, y), BothBits(x, y));
            Receive(st, z.addr, z.buf) == Outcome(st, [])
  {
    var st := Pair(x, y, c, d, token, Joined(x, y), BothBits(x, y));
    var callno := CallNo(z.buf, 0);
    assert Bucket(st, callno) == [0] || Bucket(st, callno) == [];
    assert FindLeg(st, z.addr, callno) == None;
  }

  /** After a TXCNT and a TXREADY from each leg the route is NATTED, or P2PED when the legs have
      the same IP address. Then a HANGUP or TXREJ from either leg changes and sends nothing. */
  lemma JoinedRouteStays(x: Input, y: Input, c: nat, d: nat, token: seq<Byte>, rx: Input, ry: Input, z: Input)
    requires IsTxCnt(x, c, token) && IsTxCnt(y, d, token) && c != d
    requires IsTxReady(rx, c) && rx.addr == x.addr && IsTxReady(ry, d) && ry.addr == y.addr
    requires IsRelease(z.buf)
    ensures var st := After([] + [x] + [y] + [rx] + [ry]);
            && |st.routes| == 1
            && st.routes[0].status == (if x.addr.ip != y.addr.ip then Natted else P2ped)
            && OnSide(st.routes[0], Left, x.addr, c) && OnSide(st.routes[0], Right, y.addr, d)
            && Receive(st, z.addr, z.buf) == Outcome(st, [])
  {
    var ins := [] + [x] + [y];
    PairIsMade(x, y, c, d, token);
    AfterPush(ins, rx);
    FirstReady(x, y, c, d, token, rx);
    AfterPush(ins + [rx], ry);
    SecondReady(x, y, c, d, token, ry);
    ReleaseDropped(x, y, c, d, token, z);
  }

  /** A full IAX frame with a command and one element, the token "t". */
  function Frame(callno: Byte, command: Byte): seq<Byte> {
    [0x80, callno, 0, 0, 0, 0, 0, 0, 0, 0, 6, command, 222, 1, 't' as int]
  }

  lemma FrameIs(addr: Addr, callno: Byte, command: Byte)
    requires command < 128
    ensures var x := Input(addr, Frame(callno, command));
            && IsCommand(x, callno, CommandOf(x.buf))
            && x.buf[11] == command && x.buf[10] == 6
            && Token(x.buf[FULL_HEADER..]) == Some(['t' as int]) && Split(x.buf[FULL_HEADER..]).Some?
  {
    var body: seq<Byte> := [222, 1, 't' as int];
    assert Frame(callno, command)[FULL_HEADER..] == body;
    TokenOfOne('t' as int, body);
  }

  lemma SuchFramesExist(addr: Addr, callno: Byte)
    ensures IsTxCnt(Input(addr, Frame(callno, 23)), callno, ['t' as int])
    ensures IsTxReady(Input(addr, Frame(callno, 25)), callno)
    ensures IsRelease(Frame(callno, 5)) && CallNo(Frame(callno, 5), 0) == callno
  {
    FrameIs(addr, callno, 23);
    FrameIs(addr, callno, 25);
    FrameIs(addr, callno, 5);
  }

  lemma TokenOfOne(t: Byte, body: seq<Byte>)
    requires t != 0 && body == [222, 1, t]
    ensures Token(body) == Some([t]) && Split(body).Some?
  {
    var e := Element(IE_RELAY_TOKEN, [t]);
    assert Print([e]) == PrintElement(e) + Print([]) == body;
    SplitPrint([e]);
    assert [e][1..] == [];
    assert CollectAll(NO_IES, [e]) == CollectAll(Collect(NO_IES, e), []) == Collect(NO_IES, e);
    assert [t] + [] == [t];
    assert [t][1..] == [];
    assert CString([t]) == [t];
  }
}
