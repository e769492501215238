/**
 What each reply of the phone changes, flag by flag and entry by entry, in any state.
 */
module HfpEffects {
  import opened HfpHandshake

  /** The front entry waits for this reply: for a reply of its own kind, and ERROR also comes in the
      place of a few others. */
  predicate ForFront(s: State, at: At) {
    && s.queue != []
    && if at == ERROR || at == CMS_ERROR then s.queue[0].expected in {OK, ERROR, CMS_ERROR, CMGR, SMS_PROMPT}
       else at in {BRSF, CIND, OK, CMGR, CLIP, SMS_PROMPT} && s.queue[0].expected == at
  }

  // ---------- flags, handler by handler ----------

  predicate OkFlagsAre(s: State, sent: bool, q: State) {
    && q.needCallerId == s.needCallerId
    && q.hasSms == (s.hasSms || (s.queue != [] && s.queue[0] == Entry(OK, CNMI)))
    && q.initialized == (s.initialized || (sent && s.queue != [] && s.queue[0] == Entry(OK, CLIP)))
  }

  lemma BrsfCmerFlags(s: State, blackberry: bool, sent: bool, callActive: bool)
    requires s.queue != [] && s.queue[0].expected == OK && s.queue[0].response in {BRSF, CMER}
    ensures OkFlagsAre(s, sent, OnOk(s, blackberry, sent, callActive).s)
  {
    match s.queue[0].response
    case BRSF =>
    case CMER =>
  }

  lemma CindFlags(s: State, blackberry: bool, sent: bool, callActive: bool)
    requires s.queue != [] && s.queue[0].expected == OK && s.queue[0].response in {CIND_TEST, CIND}
    ensures OkFlagsAre(s, sent, OnOk(s, blackberry, sent, callActive).s)
  {
    match s.queue[0].response
    case CIND_TEST =>
    case CIND =>
  }

  lemma ClipVgsFlags(s: State, blackberry: bool, sent: bool, callActive: bool)
    requires s.queue != [] && s.queue[0].expected == OK && s.queue[0].response in {CLIP, VGS}
    ensures OkFlagsAre(s, sent, OnOk(s, blackberry, sent, callActive).s)
  {
    match s.queue[0].response
    case CLIP =>
    case VGS =>
  }

  lemma CmgfCnmiFlags(s: State, blackberry: bool, sent: bool, callActive: bool)
    requires s.queue != [] && s.queue[0].expected == OK && s.queue[0].response in {CMGF, CNMI}
    ensures OkFlagsAre(s, sent, OnOk(s, blackberry, sent, callActive).s)
  {
    match s.queue[0].response
    case CMGF =>
    case CNMI =>
  }

  lemma OkFlags(s: State, blackberry: bool, sent: bool, callActive: bool)
    ensures OkFlagsAre(s, sent, OnOk(s, blackberry, sent, callActive).s)
  {
    if s.queue != [] && s.queue[0].expected == OK {
      match s.queue[0].response
      case BRSF | CMER => BrsfCmerFlags(s, blackberry, sent, callActive);
      case CIND_TEST | CIND => CindFlags(s, blackberry, sent, callActive);
      case CLIP | VGS => ClipVgsFlags(s, blackberry, sent, callActive);
      case CMGF | CNMI => CmgfCnmiFlags(s, blackberry, sent, callActive);
      case _ =>
    }
  }

  lemma ErrorFlags(s: State, sent: bool)
    ensures var q := OnError(s, sent).s;
            && q.needCallerId == s.needCallerId && q.initialized == s.initialized
            && q.hasSms == (s.hasSms && !(ForFront(s, ERROR) && s.queue[0].response in {CMGF, CNMI}))
  {
    if ForFront(s, ERROR) {
      match s.queue[0].response
      case VGS =>
      case CMGF =>
      case CNMI =>
      case _ =>
    }
  }

  predicate OtherFlagsAre(s: State, at: At, a: bool, q: State) {
    && q.hasSms == s.hasSms && q.initialized == s.initialized
    && q.needCallerId == if at == CIEV then a
                         else s.needCallerId && !(at == CLIP && s.queue != [] && s.queue[0].expected == CLIP)
  }

  lemma KindFlags(s: State, blackberry: bool, at: At, a: bool, b: bool)
    requires at in {BRSF, CIND, SMS_PROMPT}
    ensures OtherFlagsAre(s, at, a, Handle(s, blackberry, at, a, b).s)
  {
    match at
    case BRSF =>
    case CIND =>
    case SMS_PROMPT =>
  }

  lemma OtherFlags(s: State, blackberry: bool, at: At, a: bool, b: bool)
    requires at !in {OK, ERROR, CMS_ERROR}
    ensures OtherFlagsAre(s, at, a, Handle(s, blackberry, at, a, b).s)
  {
    match at
    case BRSF | CIND | SMS_PROMPT => KindFlags(s, blackberry, at, a, b);
    case RING =>
    case CMTI =>
    case CMGR =>
    case CLIP =>
    case CIEV =>
    case _ =>
  }

  // ---------- every reply ----------

  /** A phone is taken to have messages from OK to CNMI on, and not from an ERROR to CMGF or CNMI
      on; every other reply leaves that as it was. */
  lemma MessagesSupported(s: State, blackberry: bool, at: At, a: bool, b: bool)
    ensures var q := Handle(s, blackberry, at, a, b).s;
            && (at == OK && s.queue != [] && s.queue[0] == Entry(OK, CNMI) ==> q.hasSms)
            && (at in {ERROR, CMS_ERROR} && ForFront(s, at) && s.queue[0].response in {CMGF, CNMI} ==> !q.hasSms)
            && (q.hasSms && !s.hasSms ==> at == OK && s.queue != [] && s.queue[0] == Entry(OK, CNMI))
            && (s.hasSms && !q.hasSms ==>
                  at in {ERROR, CMS_ERROR} && ForFront(s, at) && s.queue[0].response in {CMGF, CNMI})
  {
    match at
    case OK => OkFlags(s, blackberry, a, b);
    case ERROR => ErrorFlags(s, a);
    case CMS_ERROR => ErrorFlags(s, a);
    case _ => OtherFlags(s, blackberry, at, a, b);
  }

  /** Only OK to CLIP, when the gain could be sent, makes a phone initialised. */
  lemma InitializedByClip(s: State, blackberry: bool, at: At, a: bool, b: bool)
    ensures Handle(s, blackberry, at, a, b).s.initialized <==>
            s.initialized || (at == OK && a && s.queue != [] && s.queue[0] == Entry(OK, CLIP))
  {
    match at
    case OK => OkFlags(s, blackberry, a, b);
    case ERROR => ErrorFlags(s, a);
    case CMS_ERROR => ErrorFlags(s, a);
    case _ => OtherFlags(s, blackberry, at, a, b);
  }

  /** A caller id is needed as CIEV says, until it comes. */
  lemma CallerIdNeeded(s: State, blackberry: bool, at: At, a: bool, b: bool)
    ensures Handle(s, blackberry, at, a, b).s.needCallerId <==>
            if at == CIEV then a else s.needCallerId && !(at == CLIP && s.queue != [] && s.queue[0].expected == CLIP)
  {
    match at
    case OK => OkFlags(s, blackberry, a, b);
    case ERROR => ErrorFlags(s, a);
    case CMS_ERROR => ErrorFlags(s, a);
    case _ => OtherFlags(s, blackberry, at, a, b);
  }

  /** Which replies disconnect. */
  lemma Disconnects(s: State, blackberry: bool, at: At, a: bool, b: bool)
    ensures var failed := Handle(s, blackberry, at, a, b).failed;
            var r := if s.queue != [] then s.queue[0].response else UNKNOWN;
            && (at == BRSF ==> (failed <==> ForFront(s, BRSF) && !(a && b)))
            && (at == CIND ==> (failed <==> ForFront(s, CIND) && !(a && r in {CIND_TEST, CIND})))
            && (at == OK ==>
                  (failed <==> ForFront(s, OK) && ((!a && r in {BRSF, CIND_TEST, CIND, CMER, CLIP, CMGF})
                                                   || (b && r == CIND) || (!a && r == VGS && s.hasSms))))
            && (at in {ERROR, CMS_ERROR} ==>
                  (failed <==> ForFront(s, at)
                               && (r in {BRSF, CIND_TEST, CIND, CMER, CLIP, CHUP} || (!a && r == VGS))))
            && (at == RING ==> (failed <==> s.needCallerId && !a))
            && (at == CMTI ==> (failed <==> !(a && b)))
            && (at == CMGR ==> (failed <==> ForFront(s, CMGR) && !a))
            && (at == CLIP ==> (failed <==> ForFront(s, CLIP) && !(a && b)))
            && (at == CIEV ==> failed == b)
            && (at !in {BRSF, CIND, OK, ERROR, CMS_ERROR, RING, CMTI, CMGR, CLIP, CIEV} ==> !failed)
  {
    match at
    case OK =>
    case ERROR =>
    case CMS_ERROR =>
    case _ =>
  }

  lemma NextQueue(s: State, sent: bool, e: Entry)
    requires s.queue != []
    ensures Next(s, sent, e.expected, e.response).s.queue == s.queue[1..] + if sent then [e] else []
  {
    assert (s.queue + [e])[1..] == s.queue[1..] + [e] && e == Entry(e.expected, e.response);
  }

  lemma EarlyOkSends(s: State, blackberry: bool, sent: bool, callActive: bool)
    requires s.queue != [] && s.queue[0].expected == OK && s.queue[0].response in {BRSF, CIND_TEST, CIND, CMER}
    ensures !sent ==> OnOk(s, blackberry, sent, callActive).s.queue == s.queue[1..]
    ensures sent ==>
              var q, r := OnOk(s, blackberry, sent, callActive).s.queue, s.queue[0].response;
              && (r == BRSF ==> q == s.queue[1..] + [if blackberry then Entry(OK, CMER) else Entry(CIND, CIND_TEST)])
              && (r == CIND_TEST ==> q == s.queue[1..] + [Entry(CIND, CIND)])
              && (r == CIND && callActive ==> q == s.queue[1..])
              && (r == CIND && !callActive ==>
                    q == s.queue[1..] + [if blackberry then Entry(OK, CLIP) else Entry(OK, CMER)])
              && (r == CMER ==> q == s.queue[1..] + [if blackberry then Entry(CIND, CIND_TEST) else Entry(OK, CLIP)])
  {
    var s' := Logged(s, s.queue[0].response);
    match s.queue[0].response
    case BRSF => NextQueue(s', sent, if blackberry then Entry(OK, CMER) else Entry(CIND, CIND_TEST));
    case CIND_TEST => NextQueue(s', sent, Entry(CIND, CIND));
    case CIND => NextQueue(s', sent, if blackberry then Entry(OK, CLIP) else Entry(OK, CMER));
    case CMER => NextQueue(s', sent, if blackberry then Entry(CIND, CIND_TEST) else Entry(OK, CLIP));
  }

  lemma LateOkSends(s: State, blackberry: bool, sent: bool, callActive: bool)
    requires s.queue != [] && s.queue[0].expected == OK && s.queue[0].response in {CLIP, VGS, CMGF}
    ensures var q, r := OnOk(s, blackberry, sent, callActive).s.queue, s.queue[0].response;
            && (r == CLIP ==> q == s.queue[1..] + if sent then [Entry(OK, VGS)] else [])
            && (r == VGS ==> q == s.queue[1..] + if s.hasSms && sent then [Entry(OK, CMGF)] else [])
            && (r == CMGF ==> q == s.queue[1..] + if sent then [Entry(OK, CNMI)] else [])
  {
    var s' := Logged(s, s.queue[0].response);
    match s.queue[0].response
    case CLIP => NextQueue(if sent then s'.(initialized := true) else s', sent, Entry(OK, VGS));
    case VGS => NextQueue(s', sent, Entry(OK, CMGF));
    case CMGF => NextQueue(s', sent, Entry(OK, CNMI));
  }

  lemma LastOkSends(s: State, blackberry: bool, sent: bool, callActive: bool)
    requires s.queue != [] && s.queue[0].expected == OK
    requires s.queue[0].response !in {BRSF, CIND_TEST, CIND, CMER, CLIP, VGS, CMGF}
    ensures OnOk(s, blackberry, sent, callActive).s.queue == s.queue[1..]
  {
  }

  /** OK to the front entry takes it off, and sends the next request when that can be sent and no
      call is active. */
  lemma OkSends(s: State, blackberry: bool, sent: bool, callActive: bool)
    requires s.queue != [] && s.queue[0].expected == OK
    ensures !sent ==> Handle(s, blackberry, OK, sent, callActive).s.queue == s.queue[1..]
    ensures sent ==>
              var q, r := Handle(s, blackberry, OK, sent, callActive).s.queue, s.queue[0].response;
              && (r == BRSF ==> q == s.queue[1..] + [if blackberry then Entry(OK, CMER) else Entry(CIND, CIND_TEST)])
              && (r == CIND_TEST ==> q == s.queue[1..] + [Entry(CIND, CIND)])
              && (r == CIND && callActive ==> q == s.queue[1..])
              && (r == CIND && !callActive ==>
                    q == s.queue[1..] + [if blackberry then Entry(OK, CLIP) else Entry(OK, CMER)])
              && (r == CMER ==> q == s.queue[1..] + [if blackberry then Entry(CIND, CIND_TEST) else Entry(OK, CLIP)])
              && (r == CLIP ==> q == s.queue[1..] + [Entry(OK, VGS)])
              && (r == VGS ==> q == s.queue[1..] + if s.hasSms then [Entry(OK, CMGF)] else [])
              && (r == CMGF ==> q == s.queue[1..] + [Entry(OK, CNMI)])
              && (r !in {BRSF, CIND_TEST, CIND, CMER, CLIP, VGS, CMGF} ==> q == s.queue[1..])
  {
    assert s.queue[1..] + [] == s.queue[1..];
    if s.queue[0].response in {BRSF, CIND_TEST, CIND, CMER} {
      EarlyOkSends(s, blackberry, sent, callActive);
    } else if s.queue[0].response in {CLIP, VGS, CMGF} {
      LateOkSends(s, blackberry, sent, callActive);
    } else {
      LastOkSends(s, blackberry, sent, callActive);
    }
  }

  /** BRSF and CIND to the front entry take it off; what is sent next waits for OK. */
  lemma KindSends(s: State, blackberry: bool, at: At, a: bool, b: bool)
    requires at in {BRSF, CIND} && ForFront(s, at)
    ensures var q, r := Handle(s, blackberry, at, a, b).s.queue, s.queue[0].response;
            && (at == BRSF ==> q == s.queue[1..] + if a && b then [Entry(OK, BRSF)] else [])
            && (at == CIND && r == CIND_TEST ==> q == s.queue[1..] + if a then [Entry(OK, CIND_TEST)] else [])
            && (at == CIND && r == CIND ==> q == s.queue[1..] + if a then [Entry(OK, CIND)] else [])
            && (at == CIND && r != CIND_TEST && r != CIND ==> q == s.queue[1..])
  {
    match at
    case BRSF => NextQueue(s, b, Entry(OK, BRSF));
    case CIND =>
      NextQueue(s, a, Entry(OK, CIND_TEST));
      NextQueue(s, a, Entry(OK, CIND));
  }

  lemma ErrorQueue(s: State, sent: bool)
    requires ForFront(s, ERROR)
    ensures OnError(s, sent).s.queue
         == s.queue[1..] + if sent && s.queue[0].response == VGS then [Entry(OK, CMGF)] else []
  {
    NextQueue(s, sent, Entry(OK, CMGF));
    if s.queue[0].response != VGS {
      assert OnError(s, sent).s.queue == s.queue[1..];
    }
  }

  /** ERROR to the front entry takes it off; only VGS is followed by another request. */
  lemma ErrorSends(s: State, blackberry: bool, at: At, a: bool, b: bool)
    requires at in {ERROR, CMS_ERROR} && ForFront(s, at)
    ensures Handle(s, blackberry, at, a, b).s.queue
         == s.queue[1..] + if a && s.queue[0].response == VGS then [Entry(OK, CMGF)] else []
  {
    ErrorQueue(s, a);
  }

  /** A RING waits for the caller id while it is needed, a message alert for the message, and the
      prompt for OK to the text. */
  lemma OthersSend(s: State, blackberry: bool, at: At, a: bool, b: bool)
    requires at !in {BRSF, CIND, OK, ERROR, CMS_ERROR}
    ensures var q := Handle(s, blackberry, at, a, b).s.queue;
            && (at == RING ==> q == s.queue + if a && s.needCallerId then [Entry(CLIP, UNKNOWN)] else [])
            && (at == CMTI ==> q == s.queue + if a && b then [Entry(CMGR, CMGR)] else [])
            && (at == CMGR && ForFront(s, CMGR) ==> q == s.queue[1..])
            && (at == CLIP && ForFront(s, CLIP) ==> q == s.queue[1..] + if a then [] else [Entry(OK, CHUP)])
            && (at == SMS_PROMPT && ForFront(s, SMS_PROMPT) ==>
                  q == s.queue[1..] + if a then [Entry(OK, CMGS)] else [])
            && (at !in {RING, CMTI} && !ForFront(s, at) ==> q == s.queue)
  {
    match at
    case RING =>
    case CMTI =>
    case CMGR =>
    case CLIP =>
    case SMS_PROMPT => if ForFront(s, SMS_PROMPT) { NextQueue(s, a, Entry(OK, CMGS)); }
    case _ =>
  }

  /** A reply that is not for the front entry queues nothing, but for RING and CMTI. */
  lemma NotForFront(s: State, blackberry: bool, at: At, a: bool, b: bool)
    requires at in {BRSF, CIND, OK, ERROR, CMS_ERROR} && !ForFront(s, at)
    ensures Handle(s, blackberry, at, a, b) == Outcome(s, false)
  {
  }

  /** An incoming call: CIEV asks for the caller id, RING waits for it, and CLIP ends the wait. */
  lemma CallerIdIsRead(s: State, blackberry: bool)
    requires s.running && s.queue == []
    ensures var s1 := Step(s, blackberry, Reply(CIEV, true, false));
            var s2 := Step(s1, blackberry, Reply(RING, true, false));
            var s3 := Step(s2, blackberry, Reply(CLIP, true, true));
            && s1.running && s1.needCallerId && s1.queue == []
            && s2.running && s2.needCallerId && s2.queue == [Entry(CLIP, UNKNOWN)]
            && s3.running && !s3.needCallerId && s3.queue == []
  {
  }

  /** A monitor that ends leaves nothing queued and the phone not initialised, and takes messages
      as before; one that starts asks for BRSF. */
  lemma StartsAndEnds(s: State, blackberry: bool, ev: Event)
    requires Enabled(s, ev)
    ensures ev == Start(true) ==>
              Step(s, blackberry, ev) == s.(queue := s.queue + [Entry(BRSF, BRSF)], running := true, log := [])
    ensures ev.Request? ==> Step(s, blackberry, ev) == s.(queue := s.queue + [Entry(ev.e.expected, ev.e.response)])
    ensures ev == Lost || ev == Start(false) ==>
              var q := Step(s, blackberry, ev); q.queue == [] && !q.running && !q.initialized && q.hasSms == s.hasSms
    ensures ev.Reply? && Handle(s, blackberry, ev.at, ev.a, ev.b).failed ==>
              var q := Step(s, blackberry, ev); q.queue == [] && !q.running && !q.initialized
    ensures ev.Reply? && !Handle(s, blackberry, ev.at, ev.a, ev.b).failed ==>
              Step(s, blackberry, ev).running == s.running
  {
  }
}
