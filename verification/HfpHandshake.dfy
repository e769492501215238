/**
 The initialisation of a phone (service level connection, section 4.2 of the Bluetooth
 Hands-Free Profile 1.6).  Every request that was sent has an entry in a queue that says
 which reply it waits for; a reply is handled when the front entry waits for it, and the
 handler sends the next request.  Other requests share the queue.
 */
module HfpHandshake {

  datatype At =
    | OK | ERROR | RING | BRSF | CIND | CIEV | CLIP | CMTI | CMGR | SMS_PROMPT | CMS_ERROR | UNKNOWN
    | A | D | CHUP | CMGS | VTS | CUSD
    | CMER | CIND_TEST | VGS | CMGF | CNMI

  datatype Entry = Entry(expected: At, response: At)

  /** `log` records the requests of the initialisation that were answered with OK since the
      monitor was started; no handler looks at it. */
  datatype State = State(
    queue: seq<Entry>,
    running: bool,
    initialized: bool,
    hasSms: bool,
    needCallerId: bool,
    log: seq<At>)

  /** A handler's new state, and whether it asks to disconnect. */
  datatype Outcome = Outcome(s: State, failed: bool)

  function Push(s: State, expected: At, response: At): State {
    s.(queue := s.queue + [Entry(expected, response)])
  }

  function Pop(s: State): State {
    if s.queue == [] then s else s.(queue := s.queue[1..])
  }

  predicate Waits(s: State, expected: At) {
    s.queue != [] && s.queue[0].expected == expected
  }

  function Fail(s: State): Outcome {
    Outcome(Pop(s), true)
  }

  /** Sends the next request: its entry goes to the back, and the front entry is done. */
  function Next(s: State, sent: bool, expected: At, response: At): (o: Outcome)
    ensures o.s.running == s.running
  {
    if sent then Outcome(Pop(Push(s, expected, response)), false) else Fail(s)
  }

  function OnBrsf(s: State, parsed: bool, pushed: bool): (o: Outcome)
    ensures o.s.running == s.running
  {
    if Waits(s, BRSF) then (if parsed then Next(s, pushed, OK, BRSF) else Fail(s)) else Outcome(s, false)
  }

  function OnCind(s: State, pushed: bool): (o: Outcome)
    ensures o.s.running == s.running
  {
    if !Waits(s, CIND) then Outcome(s, false)
    else match s.queue[0].response
         case CIND_TEST => Next(s, pushed, OK, CIND_TEST)
         case CIND => Next(s, pushed, OK, CIND)
         case _ => Fail(s)
  }

  function Logged(s: State, at: At): State {
    s.(log := s.log + [at])
  }

  /** `callActive` is what the call indicator says, `sent` whether the next request could be
      sent and queued. */
  function OnOk(s: State, blackberry: bool, sent: bool, callActive: bool): (o: Outcome)
    ensures o.s.running == s.running
  {
    if !Waits(s, OK) then Outcome(s, false)
    else
      var at := s.queue[0].response;
      var s' := Logged(s, at);
      match at
      case BRSF => if blackberry then Next(s', sent, OK, CMER) else Next(s', sent, CIND, CIND_TEST)
      case CIND_TEST => Next(s', sent, CIND, CIND)
      case CIND =>
        if callActive then Fail(s')
        else if !blackberry then Next(s', sent, OK, CMER) else Next(s', sent, OK, CLIP)
      case CMER => if blackberry then Next(s', sent, CIND, CIND_TEST) else Next(s', sent, OK, CLIP)
      case CLIP => Next(if sent then s'.(initialized := true) else s', sent, OK, VGS)
      case VGS => if s.hasSms then Next(s', sent, OK, CMGF) else Outcome(Pop(s'), false)
      case CMGF => Next(s', sent, OK, CNMI)
      case CNMI => Outcome(Pop(s'.(hasSms := true)), false)
      case _ => Outcome(Pop(s), false)
  }

  function OnError(s: State, sent: bool): (o: Outcome)
    ensures o.s.running == s.running
  {
    if !(Waits(s, OK) || Waits(s, ERROR) || Waits(s, CMS_ERROR) || Waits(s, CMGR) || Waits(s, SMS_PROMPT))
    then Outcome(s, false)
    else match s.queue[0].response
         case BRSF | CIND_TEST | CIND | CMER | CLIP | CHUP => Fail(s)
         case VGS => Next(s, sent, OK, CMGF)
         case CMGF | CNMI => Outcome(Pop(s.(hasSms := false)), false)
         case _ => Outcome(Pop(s), false)
  }

  function OnRing(s: State, pushed: bool): (o: Outcome)
    ensures o.s.running == s.running
  {
    if !s.needCallerId then Outcome(s, false)
    else if pushed then Outcome(Push(s, CLIP, UNKNOWN), false) else Outcome(s, true)
  }

  function OnCmti(s: State, parsed: bool, sent: bool): (o: Outcome)
    ensures o.s.running == s.running
  {
    if parsed && sent then Outcome(Push(s, CMGR, CMGR), false) else Outcome(s, true)
  }

  function OnCmgr(s: State, accepted: bool): (o: Outcome)
    ensures o.s.running == s.running
  {
    if Waits(s, CMGR) then Outcome(Pop(s), !accepted) else Outcome(s, false)
  }

  function OnClip(s: State, channel: bool, started: bool): (o: Outcome)
    ensures o.s.running == s.running
  {
    if !Waits(s, CLIP) then Outcome(s, false)
    else
      var s' := Pop(s).(needCallerId := false);
      if channel then Outcome(s', !started) else Outcome(Push(s', OK, CHUP), true)
  }

  function OnSmsPrompt(s: State, sent: bool): (o: Outcome)
    ensures o.s.running == s.running
  {
    if !Waits(s, SMS_PROMPT) then Outcome(s, false)
    else if sent then Next(s, true, OK, CMGS) else Outcome(Pop(s), false)
  }

  function OnCiev(s: State, needCallerId: bool, failed: bool): (o: Outcome)
    ensures o.s.running == s.running
  {
    Outcome(s.(needCallerId := needCallerId), failed)
  }

  /** A reply of the phone.  The flags a and b are what the handler's parsing, sending and
      channel functions return. */
  function Handle(s: State, blackberry: bool, at: At, a: bool, b: bool): (o: Outcome)
    ensures o.s.running == s.running
  {
    match at
    case BRSF => OnBrsf(s, a, b)
    case CIND => OnCind(s, a)
    case OK => OnOk(s, blackberry, a, b)
    case ERROR | CMS_ERROR => OnError(s, a)
    case RING => OnRing(s, a)
    case CMTI => OnCmti(s, a, b)
    case CMGR => OnCmgr(s, a)
    case CLIP => OnClip(s, a, b)
    case SMS_PROMPT => OnSmsPrompt(s, a)
    case CIEV => OnCiev(s, a, b)
    case _ => Outcome(s, false)
  }

  function Cleanup(s: State): State {
    s.(queue := [], running := false, initialized := false)
  }

  /** The entries that belong to the initialisation. */
  predicate IsInit(e: Entry) {
    e.response in {BRSF, CIND_TEST, CIND, CMER, CLIP, VGS, CMGF, CNMI} || e.expected in {BRSF, CIND}
  }

  /** What can happen to a device: its monitor starts, another thread queues a request of its
      own, the phone replies, or the connection is lost. */
  datatype Event =
    | Start(sent: bool)
    | Request(e: Entry)
    | Reply(at: At, a: bool, b: bool)
    | Lost

  predicate Enabled(s: State, ev: Event) {
    match ev
    case Start(_) => !s.running
    case Request(e) => !IsInit(e)
    case Reply(_, _, _) => s.running
    case Lost => s.running
  }

  function Step(s: State, blackberry: bool, ev: Event): State
    requires Enabled(s, ev)
  {
    match ev
    case Start(sent) =>
      var s' := s.(running := true, log := []);
      if sent then Push(s', BRSF, BRSF) else Cleanup(s')
    case Request(e) => Push(s, e.expected, e.response)
    case Reply(at, a, b) =>
      var o := Handle(s, blackberry, at, a, b);
      if o.failed then Cleanup(o.s) else o.s
    case Lost => Cleanup(s)
  }

  function Init(hasSms: bool): State {
    State([], false, false, hasSms, false, [])
  }

  // ---------- the order of the initialisation ----------

  /** The entries of the initialisation in the order they are queued. */
  function Stage(blackberry: bool, i: nat): Entry {
    match i
    case 0 => Entry(BRSF, BRSF)
    case 1 => Entry(OK, BRSF)
    case 2 => if blackberry then Entry(OK, CMER) else Entry(CIND, CIND_TEST)
    case 3 => if blackberry then Entry(CIND, CIND_TEST) else Entry(OK, CIND_TEST)
    case 4 => if blackberry then Entry(OK, CIND_TEST) else Entry(CIND, CIND)
    case 5 => if blackberry then Entry(CIND, CIND) else Entry(OK, CIND)
    case 6 => if blackberry then Entry(OK, CIND) else Entry(OK, CMER)
    case 7 => Entry(OK, CLIP)
    case 8 => Entry(OK, VGS)
    case 9 => Entry(OK, CMGF)
    case _ => Entry(OK, CNMI)
  }

  const CLIP_STAGE := 7

  /** The requests answered with OK before a stage. */
  function Oks(blackberry: bool, i: nat): seq<At>
    requires i <= 11
  {
    if i == 0 then []
    else if Stage(blackberry, i - 1).expected == OK
    then Oks(blackberry, i - 1) + [Stage(blackberry, i - 1).response]
    else Oks(blackberry, i - 1)
  }

  /** The five OKs that the profile asks for, in the order of the device's kind. */
  function FiveOks(blackberry: bool): seq<At> {
    if blackberry then [BRSF, CMER, CIND_TEST, CIND, CLIP] else [BRSF, CIND_TEST, CIND, CMER, CLIP]
  }

  function Inits(q: seq<Entry>): seq<Entry> {
    if q == [] then [] else if IsInit(q[0]) then [q[0]] + Inits(q[1..]) else Inits(q[1..])
  }

  lemma {:induction false} InitsPush(q: seq<Entry>, e: Entry)
    ensures Inits(q + [e]) == Inits(q) + if IsInit(e) then [e] else []
  {
    if q == [] {
      assert (q + [e])[1..] == [];
    } else {
      assert (q + [e])[1..] == q[1..] + [e];
      InitsPush(q[1..], e);
    }
  }

  /** The initialisation stands at stage i. */
  ghost predicate AtStage(s: State, blackberry: bool, i: nat)
    requires i < 11
  {
    && Inits(s.queue) == [Stage(blackberry, i)]
    && (i <= CLIP_STAGE ==> !s.initialized && s.log == Oks(blackberry, i))
    && (i > CLIP_STAGE ==> s.initialized && FiveOks(blackberry) <= s.log)
  }

  ghost predicate Finished(s: State, blackberry: bool) {
    Inits(s.queue) == [] && s.initialized && FiveOks(blackberry) <= s.log
  }

  ghost predicate Inv(s: State, blackberry: bool) {
    if s.running then Finished(s, blackberry) || exists i :: 0 <= i < 11 && AtStage(s, blackberry, i)
    else Inits(s.queue) == [] && !s.initialized
  }

  /** How far the initialisation has to go. */
  function Rank(s: State, blackberry: bool): nat {
    var q := Inits(s.queue);
    if q == [] then 0 else RankOf(q[0], blackberry, 0)
  }

  function RankOf(e: Entry, blackberry: bool, i: nat): nat
    requires i <= 11
    decreases 11 - i
  {
    if i == 11 then 0 else if Stage(blackberry, i) == e then 11 - i else RankOf(e, blackberry, i + 1)
  }

  // ---------- one step ----------

  lemma OksOfBlackberry()
    ensures Oks(true, 8) == FiveOks(true)
  {
    assert Oks(true, 1) == [];
    assert Oks(true, 2) == [BRSF];
    assert Oks(true, 3) == [BRSF, CMER];
    assert Oks(true, 4) == [BRSF, CMER];
    assert Oks(true, 5) == [BRSF, CMER, CIND_TEST];
    assert Oks(true, 6) == [BRSF, CMER, CIND_TEST];
    assert Oks(true, 7) == [BRSF, CMER, CIND_TEST, CIND];
  }

  lemma OksOfOthers()
    ensures Oks(false, 8) == FiveOks(false)
  {
    assert Oks(false, 1) == [];
    assert Oks(false, 2) == [BRSF];
    assert Oks(false, 3) == [BRSF];
    assert Oks(false, 4) == [BRSF, CIND_TEST];
    assert Oks(false, 5) == [BRSF, CIND_TEST];
    assert Oks(false, 6) == [BRSF, CIND_TEST, CIND];
    assert Oks(false, 7) == [BRSF, CIND_TEST, CIND, CMER];
  }

  lemma OksFive(blackberry: bool)
    ensures Oks(blackberry, 8) == FiveOks(blackberry)
  {
    if blackberry {
      OksOfBlackberry();
    } else {
      OksOfOthers();
    }
  }

  lemma PopPush(s: State, e: Entry)
    requires s.queue != []
    ensures var q := Pop(Push(s, e.expected, e.response)).queue;
            Inits(q) == (if IsInit(s.queue[0]) then Inits(s.queue)[1..] else Inits(s.queue))
                        + if IsInit(e) then [e] else []
  {
    assert (s.queue + [e])[1..] == s.queue[1..] + [e];
    InitsPush(s.queue[1..], e);
    assert e == Entry(e.expected, e.response);
  }

  /** An initialisation entry at the front is handled by a reply it waits for: OK, its own
      kind of reply, or an ERROR in place of OK. */
  predicate Answers(e: Entry, at: At) {
    e.expected == at || (e.expected == OK && (at == ERROR || at == CMS_ERROR))
  }

  ghost predicate Advanced(s: State, blackberry: bool, i: nat) {
    Finished(s, blackberry) || exists j :: i < j < 11 && AtStage(s, blackberry, j)
  }

  /** The entry of stage i is handled and that of stage j is queued. */
  lemma NextStage(s: State, s': State, blackberry: bool, i: nat, j: nat)
    requires i < j < 11 && AtStage(s, blackberry, i) && s.queue != [] && s.queue[0] == Stage(blackberry, i)
    requires s'.queue == s.queue
    ensures Inits(Pop(Push(s', Stage(blackberry, j).expected, Stage(blackberry, j).response)).queue)
         == [Stage(blackberry, j)]
  {
    PopPush(s', Stage(blackberry, j));
  }

  /** Before CLIP, OK to one stage sends the request of the next. */
  lemma OkSendsNext(s: State, blackberry: bool, i: nat, callActive: bool)
    requires i < CLIP_STAGE && s.queue != [] && s.queue[0] == Stage(blackberry, i) && s.queue[0].expected == OK
    requires !OnOk(s, blackberry, true, callActive).failed
    ensures var e := Stage(blackberry, i + 1);
            OnOk(s, blackberry, true, callActive).s == Pop(Push(Logged(s, s.queue[0].response), e.expected, e.response))
  {
  }

  lemma EarlyOk(s: State, blackberry: bool, i: nat, sent: bool, callActive: bool)
    requires i < CLIP_STAGE && AtStage(s, blackberry, i) && s.queue != [] && s.queue[0] == Stage(blackberry, i)
    requires s.queue[0].expected == OK && !OnOk(s, blackberry, sent, callActive).failed
    ensures AtStage(OnOk(s, blackberry, sent, callActive).s, blackberry, i + 1)
  {
    assert sent;
    OkSendsNext(s, blackberry, i, callActive);
    NextStage(s, Logged(s, s.queue[0].response), blackberry, i, i + 1);
    assert Logged(s, s.queue[0].response).log == Oks(blackberry, i + 1);
  }

  lemma ClipOk(s: State, blackberry: bool, sent: bool, callActive: bool)
    requires AtStage(s, blackberry, CLIP_STAGE) && s.queue != [] && s.queue[0] == Entry(OK, CLIP)
    requires !OnOk(s, blackberry, sent, callActive).failed
    ensures AtStage(OnOk(s, blackberry, sent, callActive).s, blackberry, CLIP_STAGE + 1)
  {
    OksFive(blackberry);
    assert s.log + [CLIP] == Oks(blackberry, CLIP_STAGE + 1);
    NextStage(s, Logged(s, CLIP).(initialized := true), blackberry, CLIP_STAGE, CLIP_STAGE + 1);
  }

  /** The front entry of the initialisation is done and no other is queued. */
  lemma LastDone(s: State, s': State, blackberry: bool, i: nat)
    requires CLIP_STAGE < i < 11 && AtStage(s, blackberry, i) && s.queue != [] && s.queue[0] == Stage(blackberry, i)
    requires s'.queue == s.queue && s'.initialized && FiveOks(blackberry) <= s'.log
    ensures Finished(Pop(s'), blackberry)
  {
  }

  /** The front entry of the initialisation is done and that of the next stage is queued. */
  lemma NextDone(s: State, s': State, blackberry: bool, i: nat)
    requires CLIP_STAGE < i < 10 && AtStage(s, blackberry, i) && s.queue != [] && s.queue[0] == Stage(blackberry, i)
    requires s'.queue == s.queue && s'.initialized && FiveOks(blackberry) <= s'.log
    ensures var e := Stage(blackberry, i + 1); AtStage(Pop(Push(s', e.expected, e.response)), blackberry, i + 1)
  {
    NextStage(s, s', blackberry, i, i + 1);
  }

  lemma LogGrows(blackberry: bool, s: State, at: At)
    requires FiveOks(blackberry) <= s.log
    ensures FiveOks(blackberry) <= Logged(s, at).log
  {
  }

  lemma VgsOk(s: State, blackberry: bool, sent: bool, callActive: bool)
    requires AtStage(s, blackberry, 8) && s.queue != [] && s.queue[0] == Entry(OK, VGS)
    requires !OnOk(s, blackberry, sent, callActive).failed
    ensures Advanced(OnOk(s, blackberry, sent, callActive).s, blackberry, 8)
  {
    var s', q := Logged(s, VGS), OnOk(s, blackberry, sent, callActive).s;
    LogGrows(blackberry, s, VGS);
    if s.hasSms {
      NextDone(s, s', blackberry, 8);
      assert q == Pop(Push(s', OK, CMGF)) && AtStage(q, blackberry, 9);
    } else {
      LastDone(s, s', blackberry, 8);
      assert q == Pop(s');
    }
  }

  lemma CmgfOk(s: State, blackberry: bool, sent: bool, callActive: bool)
    requires AtStage(s, blackberry, 9) && s.queue != [] && s.queue[0] == Entry(OK, CMGF)
    requires !OnOk(s, blackberry, sent, callActive).failed
    ensures Advanced(OnOk(s, blackberry, sent, callActive).s, blackberry, 9)
  {
    var s', q := Logged(s, CMGF), OnOk(s, blackberry, sent, callActive).s;
    LogGrows(blackberry, s, CMGF);
    NextDone(s, s', blackberry, 9);
    assert q == Pop(Push(s', OK, CNMI)) && AtStage(q, blackberry, 10);
  }

  lemma CnmiOk(s: State, blackberry: bool, sent: bool, callActive: bool)
    requires AtStage(s, blackberry, 10) && s.queue != [] && s.queue[0] == Entry(OK, CNMI)
    requires !OnOk(s, blackberry, sent, callActive).failed
    ensures Advanced(OnOk(s, blackberry, sent, callActive).s, blackberry, 10)
  {
    var s' := Logged(s, CNMI).(hasSms := true);
    LogGrows(blackberry, s, CNMI);
    LastDone(s, s', blackberry, 10);
    assert OnOk(s, blackberry, sent, callActive).s == Pop(s');
  }

  lemma LateOk(s: State, blackberry: bool, i: nat, sent: bool, callActive: bool)
    requires CLIP_STAGE < i < 11 && AtStage(s, blackberry, i) && s.queue != [] && s.queue[0] == Stage(blackberry, i)
    requires !OnOk(s, blackberry, sent, callActive).failed
    ensures Advanced(OnOk(s, blackberry, sent, callActive).s, blackberry, i)
  {
    if i == 8 {
      VgsOk(s, blackberry, sent, callActive);
    } else if i == 9 {
      CmgfOk(s, blackberry, sent, callActive);
    } else {
      CnmiOk(s, blackberry, sent, callActive);
    }
  }

  lemma BrsfAdvances(s: State, blackberry: bool, i: nat, parsed: bool, pushed: bool)
    requires i < 11 && AtStage(s, blackberry, i) && s.queue != [] && s.queue[0] == Stage(blackberry, i)
    requires s.queue[0].expected == BRSF && !OnBrsf(s, parsed, pushed).failed
    ensures AtStage(OnBrsf(s, parsed, pushed).s, blackberry, i + 1)
  {
    NextStage(s, s, blackberry, i, i + 1);
  }

  lemma CindAdvances(s: State, blackberry: bool, i: nat, pushed: bool)
    requires i < 11 && AtStage(s, blackberry, i) && s.queue != [] && s.queue[0] == Stage(blackberry, i)
    requires s.queue[0].expected == CIND && !OnCind(s, pushed).failed
    ensures i < 10 && AtStage(OnCind(s, pushed).s, blackberry, i + 1)
  {
    NextStage(s, s, blackberry, i, i + 1);
  }

  /** An ERROR to a stage up to CLIP fails. */
  lemma ErrorIsLate(s: State, blackberry: bool, i: nat, sent: bool)
    requires i < 11 && s.queue != [] && s.queue[0] == Stage(blackberry, i)
    requires s.queue[0].expected == OK && !OnError(s, sent).failed
    ensures i > CLIP_STAGE
  {
  }

  lemma ErrorAdvances(s: State, blackberry: bool, i: nat, sent: bool)
    requires i < 11 && AtStage(s, blackberry, i) && s.queue != [] && s.queue[0] == Stage(blackberry, i)
    requires s.queue[0].expected == OK && !OnError(s, sent).failed
    ensures Advanced(OnError(s, sent).s, blackberry, i)
  {
    var q := OnError(s, sent).s;
    ErrorIsLate(s, blackberry, i, sent);
    if i == 8 {
      NextDone(s, s, blackberry, 8);
      assert q == Pop(Push(s, OK, CMGF)) && AtStage(q, blackberry, 9);
    } else {
      LastDone(s, s.(hasSms := false), blackberry, i);
      assert q == Pop(s.(hasSms := false));
    }
  }

  /** A reply that answers the initialisation entry at the front takes the initialisation to
      a later stage, or ends it, or disconnects. */
  lemma ReplyAdvances(s: State, blackberry: bool, i: nat, at: At, a: bool, b: bool)
    requires i < 11 && AtStage(s, blackberry, i) && s.queue != [] && IsInit(s.queue[0])
    requires Answers(s.queue[0], at) && !Handle(s, blackberry, at, a, b).failed
    ensures Advanced(Handle(s, blackberry, at, a, b).s, blackberry, i)
  {
    assert s.queue[0] == Inits(s.queue)[0];
    match at
    case OK =>
      if i < CLIP_STAGE {
        EarlyOk(s, blackberry, i, a, b);
      } else if i == CLIP_STAGE {
        ClipOk(s, blackberry, a, b);
      } else {
        LateOk(s, blackberry, i, a, b);
      }
    case BRSF => BrsfAdvances(s, blackberry, i, a, b);
    case CIND => CindAdvances(s, blackberry, i, a);
    case ERROR => ErrorAdvances(s, blackberry, i, a);
    case CMS_ERROR => ErrorAdvances(s, blackberry, i, a);
    case _ =>
  }

  /** What a reply leaves unchanged when no initialisation entry is answered. */
  predicate Same(s: State, s': State) {
    Inits(s'.queue) == Inits(s.queue) && s'.initialized == s.initialized && s'.log == s.log && s'.running == s.running
  }

  lemma QueueLemmas(s: State)
    ensures forall e :: Inits(s.queue + [e]) == Inits(s.queue) + if IsInit(e) then [e] else []
    ensures s.queue != [] && !IsInit(s.queue[0]) ==> Inits(Pop(s).queue) == Inits(s.queue)
  {
    forall e
      ensures Inits(s.queue + [e]) == Inits(s.queue) + if IsInit(e) then [e] else []
    {
      InitsPush(s.queue, e);
    }
  }

  /** The front entry, if it belongs to the initialisation, waits for another reply. */
  predicate Unanswered(s: State, at: At) {
    s.queue != [] && IsInit(s.queue[0]) ==> s.queue[0].expected in {OK, BRSF, CIND} && !Answers(s.queue[0], at)
  }

  lemma OtherOk(s: State, blackberry: bool, sent: bool, callActive: bool)
    requires Unanswered(s, OK) && !OnOk(s, blackberry, sent, callActive).failed
    ensures Same(s, OnOk(s, blackberry, sent, callActive).s)
  {
    QueueLemmas(s);
  }

  lemma OtherError(s: State, sent: bool)
    requires Unanswered(s, ERROR) && !OnError(s, sent).failed
    ensures Same(s, OnError(s, sent).s)
  {
    QueueLemmas(s);
  }

  lemma OtherClip(s: State, channel: bool, pbx: bool)
    requires Unanswered(s, CLIP) && !OnClip(s, channel, pbx).failed
    ensures Same(s, OnClip(s, channel, pbx).s)
  {
  }

  lemma OtherPrompt(s: State, sent: bool)
    requires Unanswered(s, SMS_PROMPT) && !OnSmsPrompt(s, sent).failed
    ensures Same(s, OnSmsPrompt(s, sent).s)
  {
    if Waits(s, SMS_PROMPT) && sent {
      PopPush(s, Entry(OK, CMGS));
    }
  }

  lemma OtherReplies(s: State, blackberry: bool, at: At, a: bool, b: bool)
    requires Unanswered(s, at) && !Handle(s, blackberry, at, a, b).failed
    ensures Same(s, Handle(s, blackberry, at, a, b).s)
  {
    match at
    case OK => OtherOk(s, blackberry, a, b);
    case ERROR => OtherError(s, a);
    case CMS_ERROR => OtherError(s, a);
    case BRSF =>
    case CIND =>
    case RING => InitsPush(s.queue, Entry(CLIP, UNKNOWN));
    case CMTI => InitsPush(s.queue, Entry(CMGR, CMGR));
    case CMGR =>
    case CLIP => OtherClip(s, a, b);
    case SMS_PROMPT => OtherPrompt(s, a);
    case _ =>
  }

  lemma StageKinds(blackberry: bool, i: nat)
    ensures IsInit(Stage(blackberry, i)) && Stage(blackberry, i).expected in {OK, BRSF, CIND}
  {
  }

  lemma {:induction false} InitsMembers(q: seq<Entry>)
    ensures q != [] && IsInit(q[0]) ==> Inits(q) != [] && Inits(q)[0] == q[0]
  {
  }

  // ---------- whole runs ----------

  lemma StageKeeps(s: State, blackberry: bool, i: nat, at: At, a: bool, b: bool)
    requires i < 11 && AtStage(s, blackberry, i) && !Handle(s, blackberry, at, a, b).failed
    ensures var q := Handle(s, blackberry, at, a, b).s;
            AtStage(q, blackberry, i) || Advanced(q, blackberry, i)
    ensures s.queue != [] && IsInit(s.queue[0]) && Answers(s.queue[0], at) ==>
              Advanced(Handle(s, blackberry, at, a, b).s, blackberry, i)
  {
    InitsMembers(s.queue);
    StageKinds(blackberry, i);
    if s.queue != [] && IsInit(s.queue[0]) && Answers(s.queue[0], at) {
      ReplyAdvances(s, blackberry, i, at, a, b);
    } else {
      OtherReplies(s, blackberry, at, a, b);
    }
  }

  lemma ReplyKeeps(s: State, blackberry: bool, at: At, a: bool, b: bool)
    requires s.running && Inv(s, blackberry) && !Handle(s, blackberry, at, a, b).failed
    ensures Inv(Handle(s, blackberry, at, a, b).s, blackberry)
  {
    if Finished(s, blackberry) {
      InitsMembers(s.queue);
      OtherReplies(s, blackberry, at, a, b);
    } else {
      var i :| 0 <= i < 11 && AtStage(s, blackberry, i);
      StageKeeps(s, blackberry, i, at, a, b);
    }
  }

  lemma StepKeeps(s: State, blackberry: bool, ev: Event)
    requires Inv(s, blackberry) && Enabled(s, ev)
    ensures Inv(Step(s, blackberry, ev), blackberry)
  {
    QueueLemmas(s);
    match ev
    case Start(sent) =>
      if sent {
        assert AtStage(Step(s, blackberry, ev), blackberry, 0);
      }
    case Request(e) =>
      assert Same(s, Step(s, blackberry, ev));
      if s.running && !Finished(s, blackberry) {
        var i :| 0 <= i < 11 && AtStage(s, blackberry, i);
        assert AtStage(Step(s, blackberry, ev), blackberry, i);
      }
    case Reply(at, a, b) =>
      if !Handle(s, blackberry, at, a, b).failed {
        ReplyKeeps(s, blackberry, at, a, b);
      }
    case Lost =>
  }

  /** The states of a run of events. */
  ghost predicate Run(ss: seq<State>, evs: seq<Event>, blackberry: bool) {
    && |ss| == |evs| + 1
    && ss[0] == Init(ss[0].hasSms)
    && forall i :: 0 <= i < |evs| ==> Enabled(ss[i], evs[i]) && ss[i + 1] == Step(ss[i], blackberry, evs[i])
  }

  lemma {:induction false} RunKeeps(ss: seq<State>, evs: seq<Event>, blackberry: bool, i: nat)
    requires Run(ss, evs, blackberry) && i < |ss|
    ensures Inv(ss[i], blackberry)
  {
    if i > 0 {
      RunKeeps(ss, evs, blackberry, i - 1);
      StepKeeps(ss[i - 1], blackberry, evs[i - 1]);
    }
  }

  /** At every point of every run at most one entry of the initialisation is queued; a
      monitored phone that is not initialised has exactly one, so it never waits for
      nothing; and a phone is initialised only after the five OKs in the right order. */
  lemma HandshakeSafe(ss: seq<State>, evs: seq<Event>, blackberry: bool, i: nat)
    requires Run(ss, evs, blackberry) && i < |ss|
    ensures |Inits(ss[i].queue)| <= 1
    ensures ss[i].running && !ss[i].initialized ==> |Inits(ss[i].queue)| == 1
    ensures ss[i].initialized ==> ss[i].running && FiveOks(blackberry) <= ss[i].log
  {
    RunKeeps(ss, evs, blackberry, i);
  }

  // ---------- progress ----------

  lemma StageInjective(blackberry: bool, i: nat, j: nat)
    requires i < 11 && j < 11 && Stage(blackberry, i) == Stage(blackberry, j)
    ensures i == j
  {
  }

  lemma {:induction false} RankAt(blackberry: bool, i: nat, j: nat)
    requires j <= i < 11
    ensures RankOf(Stage(blackberry, i), blackberry, j) == 11 - i
    decreases i - j
  {
    if Stage(blackberry, i) == Stage(blackberry, j) {
      StageInjective(blackberry, i, j);
    } else {
      RankAt(blackberry, i, j + 1);
    }
  }

  /** A reply never takes the initialisation back, and one that answers its entry at the
      front of the queue takes it forward. */
  lemma ReplyLowersRank(s: State, blackberry: bool, at: At, a: bool, b: bool)
    requires s.running && Inv(s, blackberry) && !Handle(s, blackberry, at, a, b).failed
    ensures var q := Handle(s, blackberry, at, a, b).s;
            && Rank(q, blackberry) <= Rank(s, blackberry)
            && (s.queue != [] && IsInit(s.queue[0]) && Answers(s.queue[0], at) ==>
                  Rank(q, blackberry) < Rank(s, blackberry))
  {
    var q := Handle(s, blackberry, at, a, b).s;
    InitsMembers(s.queue);
    if Finished(s, blackberry) {
      OtherReplies(s, blackberry, at, a, b);
    } else {
      var i :| 0 <= i < 11 && AtStage(s, blackberry, i);
      RankAt(blackberry, i, 0);
      StageKeeps(s, blackberry, i, at, a, b);
      forall j | 0 <= j < 11 && AtStage(q, blackberry, j)
        ensures Rank(q, blackberry) == 11 - j
      {
        RankAt(blackberry, j, 0);
      }
    }
  }

  /** The reply answers the initialisation entry at the front of the queue. */
  predicate FrontAnswered(s: State, at: At) {
    s.queue != [] && IsInit(s.queue[0]) && Answers(s.queue[0], at)
  }

  /** From s a reply led to q: the initialisation stands as it should, and not further from its
      end than before. */
  ghost predicate Progress(s: State, blackberry: bool, at: At, q: State) {
    && q.running && Inv(q, blackberry)
    && Rank(q, blackberry) <= Rank(s, blackberry)
    && (FrontAnswered(s, at) ==> Rank(q, blackberry) < Rank(s, blackberry))
  }

  lemma ReplyProgresses(s: State, blackberry: bool, at: At, a: bool, b: bool)
    requires s.running && Inv(s, blackberry)
    ensures var o := Handle(s, blackberry, at, a, b); !o.failed ==> Progress(s, blackberry, at, o.s)
  {
    if !Handle(s, blackberry, at, a, b).failed {
      ReplyKeeps(s, blackberry, at, a, b);
      ReplyLowersRank(s, blackberry, at, a, b);
    }
  }

  lemma CindProgresses(s: State, blackberry: bool, pushed: bool)
    requires s.running && Inv(s, blackberry)
    ensures var o := OnCind(s, pushed); !o.failed ==> Progress(s, blackberry, CIND, o.s)
  {
    ReplyProgresses(s, blackberry, CIND, pushed, false);
  }

  lemma OkProgresses(s: State, blackberry: bool, sent: bool, callActive: bool)
    requires s.running && Inv(s, blackberry)
    ensures var o := OnOk(s, blackberry, sent, callActive); !o.failed ==> Progress(s, blackberry, OK, o.s)
  {
    ReplyProgresses(s, blackberry, OK, sent, callActive);
  }

  lemma ErrorProgresses(s: State, blackberry: bool, sent: bool)
    requires s.running && Inv(s, blackberry)
    ensures var o := OnError(s, sent); !o.failed ==> Progress(s, blackberry, ERROR, o.s)
  {
    ReplyProgresses(s, blackberry, ERROR, sent, false);
  }

  // ---------- the queue ----------

  datatype QueueOp = PushOp(e: Entry) | PopOp

  /** Any pushes and pops, and the entries that were at the front when they were popped. */
  function Operate(s: State, ops: seq<QueueOp>): (State, seq<Entry>) {
    if ops == [] then (s, [])
    else
      var (q, popped) := Operate(s, ops[..|ops| - 1]);
      match ops[|ops| - 1]
      case PushOp(e) => (Push(q, e.expected, e.response), popped)
      case PopOp => (Pop(q), popped + if q.queue == [] then [] else [q.queue[0]])
  }

  function Pushed(ops: seq<QueueOp>): seq<Entry> {
    if ops == [] then []
    else Pushed(ops[..|ops| - 1]) + match ops[|ops| - 1] case PushOp(e) => [e] case PopOp => []
  }

  lemma Regrouped(popped: seq<Entry>, q: seq<Entry>, all: seq<Entry>, e: Entry)
    requires popped + q == all
    ensures popped + (q + [e]) == all + [e]
    ensures q != [] ==> popped + [q[0]] + q[1..] == all
  {
    assert q != [] ==> q == [q[0]] + q[1..];
  }

  /** Whatever the order of pushes and pops, the entries come out as they went in: none is
      lost, doubled or overtaken. */
  lemma {:induction false} QueueIsFifo(s: State, ops: seq<QueueOp>)
    ensures var (q, popped) := Operate(s, ops); popped + q.queue == s.queue + Pushed(ops)
  {
    if ops != [] {
      var front := ops[..|ops| - 1];
      var (q, popped) := Operate(s, front);
      QueueIsFifo(s, front);
      match ops[|ops| - 1]
      case PushOp(e) =>
        Regrouped(popped, q.queue, s.queue + Pushed(front), e);
        assert e == Entry(e.expected, e.response);
        assert s.queue + Pushed(front) + [e] == s.queue + (Pushed(front) + [e]);
      case PopOp =>
        Regrouped(popped, q.queue, s.queue + Pushed(front), Entry(OK, OK));
        assert q.queue == [] ==> popped + [] == popped;
    }
  }
}
