/**
 The monitor of one phone: the message queue and the flags are updated in place by the
 handlers of the phone's replies.
 */
module HfpMonitor {
  import opened HfpHandshake

  class Monitor {
    const blackberry: bool
    var queue: seq<Entry>
    var running: bool
    var initialized: bool
    var hasSms: bool
    var needCallerId: bool
    ghost var log: seq<At>

    ghost function Abs(): State
      reads this
    {
      State(queue, running, initialized, hasSms, needCallerId, log)
    }

    /** The initialisation stands where it should. */
    ghost predicate Valid()
      reads this
    {
      Inv(Abs(), blackberry)
    }

    constructor (blackberry: bool, hasSms: bool)
      ensures Abs() == Init(hasSms) && this.blackberry == blackberry && Valid()
    {
      this.blackberry, this.hasSms := blackberry, hasSms;
      queue, running, initialized, needCallerId, log := [], false, false, false, [];
    }

    method MsgQueuePush(expected: At, response: At)
      modifies this`queue
      ensures Abs() == Push(old(Abs()), expected, response)
    {
      queue := queue + [Entry(expected, response)];
    }

    method MsgQueuePop()
      modifies this`queue
      ensures Abs() == Pop(old(Abs()))
    {
      if queue != [] {
        queue := queue[1..];
      }
    }

    method HandleBrsf(parsed: bool, pushed: bool) returns (res: int)
      requires Valid() && running
      modifies this
      ensures var o := OnBrsf(old(Abs()), parsed, pushed); Abs() == o.s && res == if o.failed then -1 else 0
      ensures res == 0 ==> Progress(old(Abs()), blackberry, BRSF, Abs())
    {
      ReplyProgresses(Abs(), blackberry, BRSF, parsed, pushed);
      if queue != [] && queue[0].expected == BRSF {
        if !parsed || !pushed {
          MsgQueuePop();
          return -1;
        }
        MsgQueuePush(OK, BRSF);
        MsgQueuePop();
      }
      return 0;
    }

    method HandleCind(pushed: bool) returns (res: int)
      requires Valid() && running
      modifies this
      ensures var o := OnCind(old(Abs()), pushed); Abs() == o.s && res == if o.failed then -1 else 0
      ensures res == 0 ==> Progress(old(Abs()), blackberry, CIND, Abs())
    {
      CindProgresses(Abs(), blackberry, pushed);
      if queue != [] && queue[0].expected == CIND {
        if !pushed || (queue[0].response != CIND_TEST && queue[0].response != CIND) {
          MsgQueuePop();
          return -1;
        }
        MsgQueuePush(OK, queue[0].response);
        MsgQueuePop();
      }
      return 0;
    }

    /** Sends a request and queues its entry, unless sending fails. */
    method Request(sent: bool, expected: At, response: At) returns (failed: bool)
      modifies this`queue
      ensures failed == !sent
      ensures Abs() == if sent then Push(old(Abs()), expected, response) else old(Abs())
    {
      failed := !sent;
      if sent {
        MsgQueuePush(expected, response);
      }
    }

    /** A request was answered with OK: the next one is sent, and its own entry is done. */
    method Answered(at: At, sent: bool, next: Entry) returns (res: int)
      modifies this`queue, this`log
      ensures var o := Next(Logged(old(Abs()), at), sent, next.expected, next.response);
              Abs() == o.s && res == if o.failed then -1 else 0
    {
      log := log + [at];
      var failed := Request(sent, next.expected, next.response);
      MsgQueuePop();
      return if failed then -1 else 0;
    }

    /** OK to one of the first four requests of the initialisation. */
    method OkBeforeClip(at: At, sent: bool, callActive: bool) returns (res: int)
      requires queue != [] && queue[0] == Entry(OK, at) && at in {BRSF, CIND_TEST, CIND, CMER}
      modifies this`queue, this`log
      ensures var o := OnOk(old(Abs()), blackberry, sent, callActive);
              Abs() == o.s && res == if o.failed then -1 else 0
    {
      match at
      case BRSF =>
        res := Answered(at, sent, if blackberry then Entry(OK, CMER) else Entry(CIND, CIND_TEST));
      case CIND_TEST =>
        res := Answered(at, sent, Entry(CIND, CIND));
      case CIND =>
        res := Answered(at, sent && !callActive, if blackberry then Entry(OK, CLIP) else Entry(OK, CMER));
      case CMER =>
        res := Answered(at, sent, if blackberry then Entry(CIND, CIND_TEST) else Entry(OK, CLIP));
    }

    /** OK to the request that completes the initialisation or to one of the later ones. */
    method OkFromClip(at: At, sent: bool, callActive: bool) returns (res: int)
      requires queue != [] && queue[0] == Entry(OK, at) && at in {CLIP, VGS, CMGF, CNMI}
      modifies this
      ensures var o := OnOk(old(Abs()), blackberry, sent, callActive);
              Abs() == o.s && res == if o.failed then -1 else 0
    {
      match at
      case CLIP =>
        res := Answered(at, sent, Entry(OK, VGS));
        if res == 0 {
          initialized := true;
        }
      case VGS =>
        if hasSms {
          res := Answered(at, sent, Entry(OK, CMGF));
        } else {
          log := log + [at];
          MsgQueuePop();
          res := 0;
        }
      case CMGF =>
        res := Answered(at, sent, Entry(OK, CNMI));
      case CNMI =>
        hasSms, log := true, log + [at];
        MsgQueuePop();
        res := 0;
    }

    method HandleOk(sent: bool, callActive: bool) returns (res: int)
      requires Valid() && running
      modifies this
      ensures var o := OnOk(old(Abs()), blackberry, sent, callActive);
              Abs() == o.s && res == if o.failed then -1 else 0
      ensures res == 0 ==> Progress(old(Abs()), blackberry, OK, Abs())
    {
      OkProgresses(Abs(), blackberry, sent, callActive);
      if queue == [] || queue[0].expected != OK {
        return 0;
      }
      var at := queue[0].response;
      if at in {BRSF, CIND_TEST, CIND, CMER} {
        res := OkBeforeClip(at, sent, callActive);
      } else if at in {CLIP, VGS, CMGF, CNMI} {
        res := OkFromClip(at, sent, callActive);
      } else {
        MsgQueuePop();
        res := 0;
      }
    }

    /** ERROR to the request of the front entry. */
    method Rejected(at: At, sent: bool) returns (res: int)
      requires queue != [] && queue[0].expected in {OK, ERROR, CMS_ERROR, CMGR, SMS_PROMPT} && at == queue[0].response
      modifies this
      ensures var o := OnError(old(Abs()), sent); Abs() == o.s && res == if o.failed then -1 else 0
    {
      var failed := false;
      match at {
      case BRSF | CIND_TEST | CIND | CMER | CLIP | CHUP => failed := true;
      case VGS => failed := Request(sent, OK, CMGF);
      case CMGF | CNMI => hasSms := false;
      case _ =>
      }
      MsgQueuePop();
      return if failed then -1 else 0;
    }

    method HandleError(sent: bool) returns (res: int)
      requires Valid() && running
      modifies this
      ensures var o := OnError(old(Abs()), sent); Abs() == o.s && res == if o.failed then -1 else 0
      ensures res == 0 ==> Progress(old(Abs()), blackberry, ERROR, Abs())
    {
      ErrorProgresses(Abs(), blackberry, sent);
      if queue == [] || queue[0].expected !in {OK, ERROR, CMS_ERROR, CMGR, SMS_PROMPT} {
        return 0;
      }
      res := Rejected(queue[0].response, sent);
    }

    method HandleRing(pushed: bool) returns (res: int)
      requires Valid() && running
      modifies this
      ensures var o := OnRing(old(Abs()), pushed); Abs() == o.s && res == if o.failed then -1 else 0
      ensures res == 0 ==> Progress(old(Abs()), blackberry, RING, Abs())
    {
      ReplyProgresses(Abs(), blackberry, RING, pushed, false);
      if !needCallerId {
        return 0;
      }
      var failed := Request(pushed, CLIP, UNKNOWN);
      return if failed then -1 else 0;
    }

    method HandleCmti(parsed: bool, sent: bool) returns (res: int)
      requires Valid() && running
      modifies this
      ensures var o := OnCmti(old(Abs()), parsed, sent); Abs() == o.s && res == if o.failed then -1 else 0
      ensures res == 0 ==> Progress(old(Abs()), blackberry, CMTI, Abs())
    {
      ReplyProgresses(Abs(), blackberry, CMTI, parsed, sent);
      if !parsed {
        return -1;
      }
      var failed := Request(sent, CMGR, CMGR);
      return if failed then -1 else 0;
    }

    method HandleCmgr(accepted: bool) returns (res: int)
      requires Valid() && running
      modifies this
      ensures var o := OnCmgr(old(Abs()), accepted); Abs() == o.s && res == if o.failed then -1 else 0
      ensures res == 0 ==> Progress(old(Abs()), blackberry, CMGR, Abs())
    {
      ReplyProgresses(Abs(), blackberry, CMGR, accepted, false);
      if queue == [] || queue[0].expected != CMGR {
        return 0;
      }
      MsgQueuePop();
      return if accepted then 0 else -1;
    }

    method HandleClip(channel: bool, pbx: bool) returns (res: int)
      requires Valid() && running
      modifies this
      ensures var o := OnClip(old(Abs()), channel, pbx); Abs() == o.s && res == if o.failed then -1 else 0
      ensures res == 0 ==> Progress(old(Abs()), blackberry, CLIP, Abs())
    {
      ReplyProgresses(Abs(), blackberry, CLIP, channel, pbx);
      if queue == [] || queue[0].expected != CLIP {
        return 0;
      }
      MsgQueuePop();
      needCallerId := false;
      if !channel {
        MsgQueuePush(OK, CHUP);
        return -1;
      }
      return if pbx then 0 else -1;
    }

    method HandleSmsPrompt(sent: bool)
      requires Valid() && running
      modifies this
      ensures Abs() == OnSmsPrompt(old(Abs()), sent).s
      ensures Progress(old(Abs()), blackberry, SMS_PROMPT, Abs())
    {
      ReplyProgresses(Abs(), blackberry, SMS_PROMPT, sent, false);
      if queue == [] || queue[0].expected != SMS_PROMPT {
        return;
      }
      var failed := Request(sent, OK, CMGS);
      MsgQueuePop();
    }

    /** The switch over the kinds of replies. */
    method Dispatch(at: At, a: bool, b: bool) returns (res: int)
      requires Valid() && running
      modifies this
      ensures var o := Handle(old(Abs()), blackberry, at, a, b); Abs() == o.s && res == if o.failed then -1 else 0
    {
      match at
      case BRSF => res := HandleBrsf(a, b);
      case CIND => res := HandleCind(a);
      case OK => res := HandleOk(a, b);
      case ERROR => res := HandleError(a);
      case CMS_ERROR => res := HandleError(a);
      case RING => res := HandleRing(a);
      case CMTI => res := HandleCmti(a, b);
      case CMGR => res := HandleCmgr(a);
      case CLIP => res := HandleClip(a, b);
      case SMS_PROMPT => HandleSmsPrompt(a); res := 0;
      case CIEV =>
        needCallerId := a;
        res := if b then -1 else 0;
      case _ => res := 0;
    }

    /** One reply in the monitor's loop, which is left when its handler fails. Never more than
        one entry of the initialisation is queued, a phone is initialised only after the five
        OKs in their order, and an answer to the entry at the front takes the initialisation
        nearer to its end. */
    method HandleMessage(at: At, a: bool, b: bool) returns (res: int)
      requires Valid() && running
      modifies this
      ensures var o := Handle(old(Abs()), blackberry, at, a, b);
              Abs() == (if o.failed then Cleanup(o.s) else o.s) && res == if o.failed then -1 else 0
      ensures Valid() && |Inits(queue)| <= 1 && (initialized ==> FiveOks(blackberry) <= log)
      ensures if res == 0 then Progress(old(Abs()), blackberry, at, Abs())
              else !running && !initialized && queue == []
    {
      ReplyProgresses(Abs(), blackberry, at, a, b);
      res := Dispatch(at, a, b);
      if res < 0 {
        CleanUp();
      }
    }

    /** What the monitor does when it ends. */
    method CleanUp()
      modifies this`queue, this`running, this`initialized
      ensures Abs() == Cleanup(old(Abs())) && Valid()
    {
      queue, running, initialized := [], false, false;
    }

    /** What the monitor does first. */
    method Begin(sent: bool)
      requires Valid() && !running
      modifies this
      ensures Abs() == Step(old(Abs()), blackberry, Start(sent))
      ensures Valid() && running == sent
    {
      StepKeeps(Abs(), blackberry, Start(sent));
      running, log := true, [];
      var failed := Request(sent, BRSF, BRSF);
      if failed {
        CleanUp();
      }
    }
  }
}
