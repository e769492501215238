/**
 The relay server's routes as a state machine over received datagrams: the route table,
 the index of route legs by call number, and what each datagram changes and sends.
 Call path optimisation (TXCNT, TXREADY) is described in section 6.5 of RFC 5456.
 */
module RelayRoutes {
  import opened Basics
  import opened RelayFrames

  datatype Status = Setting | Setted | Natted | P2ped | Releasing | Released

  datatype Side = Left | Right

  datatype Route = Route(
    token: seq<Byte>,
    lAddr: Addr, rAddr: Addr,
    lCallno: nat, rCallno: nat,
    status: Status,
    txstatus: bv8,
    lPkt: seq<Byte>, rPkt: seq<Byte>)

  type Rid = nat

  /** `routes` holds every route ever allocated, `rti` the newest one, and `buckets` the
      lists that the index array points to. */
  datatype State = State(routes: seq<Route>, rti: Option<Rid>, buckets: map<nat, seq<Rid>>)

  const Init := State([], None, map[])

  datatype Datagram = Datagram(to: Addr, data: seq<Byte>)

  const EVENT_INIT_NAT: Byte := 0
  const EVENT_INIT_P2P: Byte := 1
  const EVENT_RS: Byte := 2
  const EVENT_NAT: Byte := 3
  const EVENT_P2P: Byte := 4
  const EVENT_NONE: Byte := 5

  // ---------- the index ----------

  function Bucket(st: State, c: nat): seq<Rid> {
    if c in st.buckets then st.buckets[c] else []
  }

  predicate OnSide(r: Route, side: Side, addr: Addr, callno: nat) {
    match side
    case Left => r.lAddr == addr && r.lCallno == callno
    case Right => r.rAddr == addr && r.rCallno == callno
  }

  predicate Findable(r: Route) {
    r.status.Setted? || r.status.Releasing?
  }

  /** The first route of a list that can be found and has the leg on one side. */
  function FindIn(routes: seq<Route>, ids: seq<Rid>, addr: Addr, callno: nat): (f: Option<(Rid, Side)>)
    ensures f.Some? ==>
              && f.value.0 < |routes| && f.value.0 in ids
              && Findable(routes[f.value.0]) && OnSide(routes[f.value.0], f.value.1, addr, callno)
  {
    if ids == [] then None
    else if ids[0] < |routes| && Findable(routes[ids[0]]) && OnSide(routes[ids[0]], Left, addr, callno)
      then Some((ids[0], Left))
    else if ids[0] < |routes| && Findable(routes[ids[0]]) && OnSide(routes[ids[0]], Right, addr, callno)
      then Some((ids[0], Right))
    else FindIn(routes, ids[1..], addr, callno)
  }

  function FindLeg(st: State, addr: Addr, callno: nat): Option<(Rid, Side)> {
    FindIn(st.routes, Bucket(st, callno), addr, callno)
  }

  /** A token finds the newest route when that route's token begins it. */
  function FindToken(st: State, token: seq<Byte>): (f: Option<Rid>)
    ensures f.Some? ==> f.value < |st.routes|
  {
    if st.rti.Some? && st.rti.value < |st.routes| && st.routes[st.rti.value].token <= token then st.rti else None
  }

  function AddToIndex(st: State, callno: nat, id: Rid): State {
    st.(buckets := st.buckets[callno := [id] + Bucket(st, callno)])
  }

  predicate HasLeg(routes: seq<Route>, id: Rid, addr: Addr, callno: nat) {
    id < |routes| && (OnSide(routes[id], Left, addr, callno) || OnSide(routes[id], Right, addr, callno))
  }

  function DropLeg(routes: seq<Route>, ids: seq<Rid>, addr: Addr, callno: nat): seq<Rid> {
    if ids == [] then []
    else if HasLeg(routes, ids[0], addr, callno) then DropLeg(routes, ids[1..], addr, callno)
    else [ids[0]] + DropLeg(routes, ids[1..], addr, callno)
  }

  function DelFromIndex(st: State, addr: Addr, callno: nat): State {
    st.(buckets := st.buckets[callno := DropLeg(st.routes, Bucket(st, callno), addr, callno)])
  }

  function WithRoute(st: State, id: Rid, r: Route): State
    requires id < |st.routes|
  {
    st.(routes := st.routes[id := r])
  }

  // ---------- what a datagram does ----------

  datatype Outcome = Outcome(st: State, sent: seq<Datagram>)

  function Nothing(st: State): Outcome {
    Outcome(st, [])
  }

  function Peer(r: Route, side: Side): Addr {
    if side.Left? then r.rAddr else r.lAddr
  }

  /** Passes the datagram on to the other leg of the route it belongs to. */
  function Forward(st: State, addr: Addr, callno: nat, buf: seq<Byte>): seq<Datagram> {
    match FindLeg(st, addr, callno)
    case None => []
    case Some((id, side)) => [Datagram(Peer(st.routes[id], side), buf)]
  }

  function Event(event: Byte): seq<Byte> {
    [IE_TXEVENT, 1, event]
  }

  /** Each leg gets the last packet of the other with an event behind it. */
  function Announce(r: Route, event: Byte): seq<Datagram> {
    [Datagram(r.rAddr, r.lPkt + Event(event)), Datagram(r.lAddr, r.rPkt + Event(event))]
  }

  function OnTxCnt(st: State, addr: Addr, callno: nat, buf: seq<Byte>, token: seq<Byte>): Outcome {
    match FindToken(st, token)
    case None =>
      var id := |st.routes|;
      var r := Route(token, addr, NO_ADDR, callno, 0, Setting, 0, buf, []);
      Outcome(AddToIndex(State(st.routes + [r], Some(id), st.buckets), callno, id), [])
    case Some(id) =>
      var r := st.routes[id];
      if !r.status.Setting? then Nothing(st)
      else if r.lCallno == callno then
        Outcome(WithRoute(st, id, r.(lAddr := addr, lPkt := buf)), [])
      else
        var r' := r.(rCallno := callno, rAddr := addr, status := Setted);
        Outcome(AddToIndex(WithRoute(st, id, r'), callno, id), [Datagram(r.lAddr, buf), Datagram(addr, r.lPkt)])
  }

  predicate Connected(s: Status) {
    s.Setted? || s.Natted? || s.P2ped?
  }

  /** The event byte that a heartbeat gets.  When the route is being set up or released no
      case of the code applies, and the byte is that of the zeroed receive buffer. */
  function HeartbeatEvent(r: Route): Byte {
    match r.status
    case Setted => if r.lAddr.ip != r.rAddr.ip then EVENT_INIT_NAT else EVENT_INIT_P2P
    case Natted | P2ped => EVENT_NONE
    case _ => 0
  }

  /** A heartbeat from the known address of a leg. */
  function StayingLeg(r: Route, side: Side, addr: Addr, buf: seq<Byte>): (Route, seq<Datagram>) {
    var data := buf + Annotation(addr, HeartbeatEvent(r));
    (if side.Left? then r.(lPkt := buf) else r.(rPkt := buf), [Datagram(Peer(r, side), data)])
  }

  /** A heartbeat from a new address of a leg. */
  function MovedLeg(r: Route, side: Side, addr: Addr): (Route, seq<Datagram>) {
    var r' := if side.Left? then r.(lAddr := addr) else r.(rAddr := addr);
    if Connected(r.status) then (r'.(status := Setted), Announce(r', EVENT_RS)) else (r', [])
  }

  function OnHeartbeat(st: State, addr: Addr, callno: nat, buf: seq<Byte>, token: seq<Byte>): Outcome {
    match FindToken(st, token)
    case None => Nothing(st)
    case Some(id) =>
      var r := st.routes[id].(txstatus := 0);
      var side := if r.lCallno == callno then Left else Right;
      var known := if side.Left? then r.lAddr else r.rAddr;
      var (r', sent) := if known == addr then StayingLeg(r, side, addr, buf) else MovedLeg(r, side, addr);
      Outcome(WithRoute(st, id, r'), sent)
  }

  /** The bit that TXREADY from one leg sets: bits 0 and 1 when the legs have different
      IP addresses, bits 2 and 3 when they share one. */
  function ReadyBit(r: Route, side: Side): bv8 {
    if r.lAddr.ip != r.rAddr.ip then (if side.Left? then 1 else 2) else (if side.Left? then 4 else 8)
  }

  function Mark(r: Route, side: Side): Route {
    r.(txstatus := r.txstatus | ReadyBit(r, side))
  }

  function OnTxReady(st: State, addr: Addr, callno: nat): Outcome {
    match FindLeg(st, addr, callno)
    case None => Nothing(st)
    case Some((id, side)) =>
      var r := st.routes[id];
      var r' := if r.status.Setted? then Mark(r, side) else r;
      if r'.txstatus == 3 then Outcome(WithRoute(st, id, r'.(status := Natted)), Announce(r', EVENT_NAT))
      else if r'.txstatus == 12 then Outcome(WithRoute(st, id, r'.(status := P2ped)), Announce(r', EVENT_P2P))
      else Outcome(WithRoute(st, id, r'), [])
  }

  function Release(st: State, id: Rid, status: Status): State
    requires id < |st.routes|
  {
    var r := st.routes[id];
    DelFromIndex(DelFromIndex(WithRoute(st, id, r.(status := status)), r.lAddr, r.lCallno), r.rAddr, r.rCallno)
  }

  function OnOther(st: State, addr: Addr, callno: nat, buf: seq<Byte>, command: Command): Outcome {
    match FindLeg(st, addr, callno)
    case None => Nothing(st)
    case Some((id, side)) =>
      var sent := Forward(st, addr, callno, buf);
      match command
      case Hangup => Outcome(Release(st, id, Releasing), sent)
      case TxRej => Outcome(Release(st, id, Released), sent)
      case _ => Outcome(st, sent)
  }

  /** The body of a full frame, when its elements are well formed and name a token. */
  function Token(body: seq<Byte>): Option<seq<Byte>> {
    match Split(body)
    case None => None
    case Some(es) =>
      var token := CString(CollectAll(NO_IES, es).token);
      if token == [] then None else Some(token)
  }

  function OnFull(st: State, addr: Addr, buf: seq<Byte>): Outcome
    requires |buf| >= MINI_HEADER
  {
    if |buf| < FULL_HEADER then Nothing(st)
    else
      var body := buf[FULL_HEADER..];
      var callno := CallNo(buf, 0);
      match CommandOf(buf)
      case TxCnt => if Token(body).None? then Nothing(st) else OnTxCnt(st, addr, callno, buf, Token(body).value)
      case Heartbeat => if Token(body).None? then Nothing(st) else OnHeartbeat(st, addr, callno, buf, Token(body).value)
      case TxReady => if Split(body).None? then Nothing(st) else OnTxReady(st, addr, callno)
      case command => OnOther(st, addr, callno, buf, command)
  }

  /** One call of process_udp.  A video frame is passed on and then falls through to the
      mini frame code, which looks its first two bytes, call number 0, up once more. */
  function Receive(st: State, addr: Addr, buf: seq<Byte>): Outcome {
    if |buf| < MINI_HEADER then Nothing(st)
    else if IsVideo(buf) then
      if |buf| < VIDEO_HEADER then Nothing(st)
      else Outcome(st, Forward(st, addr, CallNo(buf, 2), buf) + Forward(st, addr, CallNo(buf, 0), buf))
    else if IsFull(buf) then OnFull(st, addr, buf)
    else Outcome(st, Forward(st, addr, CallNo(buf, 0), buf))
  }

  /** A heartbeat that is forwarded with the relay's elements behind it still carries the same
      token. */
  lemma ForwardedHeartbeatKeepsToken(buf: seq<Byte>, sender: Addr, event: Byte)
    requires |buf| >= FULL_HEADER && Split(buf[FULL_HEADER..]).Some?
    ensures Token((buf + Annotation(sender, event))[FULL_HEADER..]) == Token(buf[FULL_HEADER..])
  {
    assert (buf + Annotation(sender, event))[FULL_HEADER..] == buf[FULL_HEADER..] + Annotation(sender, event);
    AnnotationKeepsBody(buf[FULL_HEADER..], sender, event);
  }
}
