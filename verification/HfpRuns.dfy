/**
 Whole initialisations: the replies that are waited for, one after the other.
 */
module HfpRuns {
  import opened HfpHandshake
  import opened HfpEffects

  /** The reply that an entry waits for, when everything its handler does succeeds. */
  function GoodReply(e: Entry): Event {
    Reply(e.expected, true, e.expected.BRSF?)
  }

  /** Whether another stage comes after stage i. */
  predicate GoesOn(i: nat, hasSms: bool) {
    i < 8 || (i == 8 && hasSms) || i == 9
  }

  /** Only the entry of stage i is queued. */
  ghost predicate AloneAt(s: State, blackberry: bool, i: nat) {
    i < 11 && s.running && s.queue == [Stage(blackberry, i)] && AtStage(s, blackberry, i)
  }

  lemma OneLeft(s: State, e: Entry)
    requires s.queue != [] && |s.queue| == 1
    ensures Pop(Push(s, e.expected, e.response)).queue == [e] && Pop(s).queue == []
  {
    assert e == Entry(e.expected, e.response);
  }

  /** OK to a request before CLIP. */
  lemma GoodEarlyOk(s: State, blackberry: bool, i: nat)
    requires i < CLIP_STAGE && AloneAt(s, blackberry, i) && Stage(blackberry, i).expected == OK
    ensures var o := OnOk(s, blackberry, true, false); !o.failed && o.s.queue == [Stage(blackberry, i + 1)]
  {
    OneLeft(Logged(s, s.queue[0].response), Stage(blackberry, i + 1));
    assert !OnOk(s, blackberry, true, false).failed;
    OkSendsNext(s, blackberry, i, false);
  }

  /** OK to CLIP or a later request. */
  lemma GoodLateOk(s: State, blackberry: bool, i: nat)
    requires i >= CLIP_STAGE && AloneAt(s, blackberry, i)
    ensures var o := OnOk(s, blackberry, true, false);
            !o.failed && o.s.queue == if GoesOn(i, s.hasSms) then [Stage(blackberry, i + 1)] else []
  {
    OneLeft(Logged(s, s.queue[0].response), Stage(blackberry, i + 1));
  }

  lemma GoodBrsf(s: State, blackberry: bool)
    requires AloneAt(s, blackberry, 0)
    ensures var o := OnBrsf(s, true, true); !o.failed && o.s.queue == [Stage(blackberry, 1)]
  {
    OneLeft(s, Stage(blackberry, 1));
  }

  lemma GoodCind(s: State, blackberry: bool, i: nat)
    requires AloneAt(s, blackberry, i) && Stage(blackberry, i).expected == CIND
    ensures 0 < i < 8
    ensures var o := OnCind(s, true); !o.failed && o.s.queue == [Stage(blackberry, i + 1)]
  {
    OneLeft(s, Stage(blackberry, i + 1));
  }

  /** A good reply never fails; it leaves the entry of the next stage, or none. */
  lemma GoodReplyMoves(s: State, blackberry: bool, i: nat)
    requires AloneAt(s, blackberry, i)
    ensures var e := Stage(blackberry, i); var o := Handle(s, blackberry, e.expected, true, e.expected.BRSF?);
            !o.failed && o.s.queue == if GoesOn(i, s.hasSms) then [Stage(blackberry, i + 1)] else []
  {
    StageKinds(blackberry, i);
    if Stage(blackberry, i).expected == BRSF {
      GoodBrsf(s, blackberry);
    } else if Stage(blackberry, i).expected == CIND {
      GoodCind(s, blackberry, i);
    } else if i < CLIP_STAGE {
      GoodEarlyOk(s, blackberry, i);
    } else {
      GoodLateOk(s, blackberry, i);
    }
  }

  lemma AloneIs(q: State, blackberry: bool, i: nat)
    requires i < 11 && q.running && Inv(q, blackberry) && q.queue == [Stage(blackberry, i)]
    ensures AloneAt(q, blackberry, i)
  {
    StageKinds(blackberry, i);
    assert q.queue[1..] == [];
    assert Inits(q.queue) == [Stage(blackberry, i)];
    var j :| 0 <= j < 11 && AtStage(q, blackberry, j);
    StageInjective(blackberry, i, j);
  }

  lemma GoodReplyKeeps(s: State, blackberry: bool, i: nat)
    requires AloneAt(s, blackberry, i)
    ensures var q := Step(s, blackberry, GoodReply(Stage(blackberry, i)));
            if GoesOn(i, s.hasSms) then AloneAt(q, blackberry, i + 1)
            else q.running && q.queue == [] && Finished(q, blackberry)
  {
    var e := Stage(blackberry, i);
    GoodReplyMoves(s, blackberry, i);
    ReplyKeeps(s, blackberry, e.expected, true, e.expected.BRSF?);
    if GoesOn(i, s.hasSms) {
      AloneIs(Handle(s, blackberry, e.expected, true, e.expected.BRSF?).s, blackberry, i + 1);
    }
  }

  lemma GoodReplyKeepsMessages(s: State, blackberry: bool, i: nat)
    requires AloneAt(s, blackberry, i) && (s.hasSms || i <= 8)
    ensures Step(s, blackberry, GoodReply(Stage(blackberry, i))).hasSms == s.hasSms
  {
    var e := Stage(blackberry, i);
    GoodReplyMoves(s, blackberry, i);
    StageKinds(blackberry, i);
    MessagesSupported(s, blackberry, e.expected, true, e.expected.BRSF?);
  }

  /** The number of replies: the last two stages are for messages. */
  function Replies(hasSms: bool): nat {
    if hasSms then 11 else 9
  }

  /** The initialisation after i good replies. */
  ghost predicate Stands(s: State, blackberry: bool, hasSms: bool, i: nat) {
    && s.running && s.hasSms == hasSms
    && if i < Replies(hasSms) then AloneAt(s, blackberry, i) else s.queue == [] && Finished(s, blackberry)
  }

  lemma StandsNext(s: State, blackberry: bool, hasSms: bool, i: nat)
    requires i < Replies(hasSms) && Stands(s, blackberry, hasSms, i)
    ensures Stands(Step(s, blackberry, GoodReply(Stage(blackberry, i))), blackberry, hasSms, i + 1)
  {
    GoodReplyKeeps(s, blackberry, i);
    GoodReplyKeepsMessages(s, blackberry, i);
  }

  lemma StandsFirst(blackberry: bool, hasSms: bool)
    ensures Stands(Step(Init(hasSms), blackberry, Start(true)), blackberry, hasSms, 0)
  {
    assert [] + [Entry(BRSF, BRSF)] == [Stage(blackberry, 0)];
    assert Inits([Entry(BRSF, BRSF)]) == [Entry(BRSF, BRSF)] by {
      assert [Entry(BRSF, BRSF)][1..] == [];
    }
  }

  /** What holds of a first state, and of the next one when it holds of one, holds of them all. */
  lemma {:induction false} Chain(s0: State, next: (State, nat) -> State, ok: (State, nat) -> bool, n: nat)
      returns (ss: seq<State>)
    requires ok(s0, 0) && forall s, i: nat :: i < n && ok(s, i) ==> ok(next(s, i), i + 1)
    ensures |ss| == n + 1 && ss[0] == s0
    ensures forall i: nat :: i <= n ==> ok(ss[i], i)
    ensures forall i: nat :: i < n ==> ss[i + 1] == next(ss[i], i)
  {
    if n == 0 {
      ss := [s0];
    } else {
      ss := Chain(s0, next, ok, n - 1);
      ss := ss + [next(ss[n - 1], n - 1)];
    }
  }

  /** The states after the start and after each good reply. */
  lemma GoodChain(blackberry: bool, hasSms: bool, n: nat) returns (ss: seq<State>)
    requires n == Replies(hasSms)
    ensures |ss| == n + 1 && ss[0] == Step(Init(hasSms), blackberry, Start(true))
    ensures forall i: nat :: i <= n ==> Stands(ss[i], blackberry, hasSms, i)
    ensures forall i: nat :: i < n ==>
              ss[i].running && ss[i + 1] == Step(ss[i], blackberry, GoodReply(Stage(blackberry, i)))
  {
    var next := (s: State, i: nat) => if s.running then Step(s, blackberry, GoodReply(Stage(blackberry, i))) else s;
    var ok := (s: State, i: nat) => Stands(s, blackberry, hasSms, i);
    forall s, i: nat | i < n && ok(s, i) ensures ok(next(s, i), i + 1) {
      StandsNext(s, blackberry, hasSms, i);
    }
    var s0 := Step(Init(hasSms), blackberry, Start(true));
    StandsFirst(blackberry, hasSms);
    ss := Chain(s0, next, ok, n);
    forall i: nat | i <= n ensures Stands(ss[i], blackberry, hasSms, i) {
      assert ok(ss[i], i);
    }
    forall i: nat | i < n
      ensures ss[i].running && ss[i + 1] == Step(ss[i], blackberry, GoodReply(Stage(blackberry, i)))
    {
      assert ok(ss[i], i) && ss[i + 1] == next(ss[i], i);
    }
  }

  /** A run from its states behind the start. */
  lemma RunOf(rest: seq<State>, replies: seq<Event>, blackberry: bool, hasSms: bool)
    requires |rest| == |replies| + 1 && rest[0] == Step(Init(hasSms), blackberry, Start(true))
    requires forall i: nat :: i < |replies| ==>
               Enabled(rest[i], replies[i]) && rest[i + 1] == Step(rest[i], blackberry, replies[i])
    ensures Run([Init(hasSms)] + rest, [Start(true)] + replies, blackberry)
  {
    var ss, evs := [Init(hasSms)] + rest, [Start(true)] + replies;
    forall i | 0 <= i < |evs| ensures Enabled(ss[i], evs[i]) && ss[i + 1] == Step(ss[i], blackberry, evs[i]) {
      if i > 0 {
        assert ss[i] == rest[i - 1] && evs[i] == replies[i - 1] && ss[i + 1] == rest[i];
      }
    }
  }

  lemma StandsAlone(s: State, blackberry: bool, hasSms: bool, i: nat)
    requires Stands(s, blackberry, hasSms, i)
    ensures i < Replies(hasSms) ==> s.queue == [Stage(blackberry, i)]
    ensures i == Replies(hasSms) ==>
              s.initialized && s.queue == [] && FiveOks(blackberry) <= s.log && s.hasSms == hasSms
  {
  }

  /** A phone of either kind is initialised, and nothing is left in the queue, after the start
      and the reply that is waited for to each request: 11 replies when it is set up for messages,
      and 9 otherwise. It then still takes messages exactly if it was set up for them. */
  lemma InitialisationEnds(blackberry: bool, hasSms: bool) returns (ss: seq<State>, evs: seq<Event>)
    ensures Run(ss, evs, blackberry) && ss[0].hasSms == hasSms && |evs| == if hasSms then 12 else 10
    ensures forall j :: 1 <= j < |evs| ==> ss[j].queue == [Stage(blackberry, j - 1)]
    ensures var s := ss[|evs|]; s.initialized && s.queue == [] && FiveOks(blackberry) <= s.log && s.hasSms == hasSms
  {
    var n := Replies(hasSms);
    var rest := GoodChain(blackberry, hasSms, n);
    var replies := seq(n, i requires 0 <= i => GoodReply(Stage(blackberry, i)));
    RunOf(rest, replies, blackberry, hasSms);
    ss, evs := [Init(hasSms)] + rest, [Start(true)] + replies;
    forall j | 1 <= j < |evs| ensures ss[j].queue == [Stage(blackberry, j - 1)] {
      StandsAlone(rest[j - 1], blackberry, hasSms, j - 1);
    }
    StandsAlone(rest[n], blackberry, hasSms, n);
  }

  /** The replies that are waited for, in order, by a phone that is no blackberry. */
  lemma OrderOfRequests(hasSms: bool) returns (ss: seq<State>, evs: seq<Event>)
    ensures Run(ss, evs, false) && ss[0].hasSms == hasSms && |evs| >= 10 && ss[|evs|].initialized
    ensures ss[1].queue == [Entry(BRSF, BRSF)] && ss[2].queue == [Entry(OK, BRSF)]
    ensures ss[3].queue == [Entry(CIND, CIND_TEST)] && ss[4].queue == [Entry(OK, CIND_TEST)]
    ensures ss[5].queue == [Entry(CIND, CIND)] && ss[6].queue == [Entry(OK, CIND)]
    ensures ss[7].queue == [Entry(OK, CMER)] && ss[8].queue == [Entry(OK, CLIP)] && ss[9].queue == [Entry(OK, VGS)]
    ensures if hasSms then |ss| == 13 && ss[10].queue == [Entry(OK, CMGF)] && ss[11].queue == [Entry(OK, CNMI)]
                           && ss[12].queue == []
            else |ss| == 11 && ss[10].queue == []
  {
    ss, evs := InitialisationEnds(false, hasSms);
  }

  /** The same for a blackberry, which is asked for CMER first. */
  lemma OrderForBlackberry(hasSms: bool) returns (ss: seq<State>, evs: seq<Event>)
    ensures Run(ss, evs, true) && ss[0].hasSms == hasSms && |evs| >= 10 && ss[|evs|].initialized
    ensures ss[1].queue == [Entry(BRSF, BRSF)] && ss[2].queue == [Entry(OK, BRSF)] && ss[3].queue == [Entry(OK, CMER)]
    ensures ss[4].queue == [Entry(CIND, CIND_TEST)] && ss[5].queue == [Entry(OK, CIND_TEST)]
    ensures ss[6].queue == [Entry(CIND, CIND)] && ss[7].queue == [Entry(OK, CIND)]
    ensures ss[8].queue == [Entry(OK, CLIP)] && ss[9].queue == [Entry(OK, VGS)]
    ensures if hasSms then |ss| == 13 && ss[10].queue == [Entry(OK, CMGF)] && ss[11].queue == [Entry(OK, CNMI)]
                           && ss[12].queue == []
            else |ss| == 11 && ss[10].queue == []
  {
    ss, evs := InitialisationEnds(true, hasSms);
  }
}
