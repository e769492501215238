/**
 The audio pump of the conference mixer: a thread that exists while audio is played or
 recorded, and a message that posts itself again for every frame.
 */
module AudioPump {

  const FRAME_MS := 10

  /** A queued message, and when a message for a frame is due. */
  datatype Message = StartProcess | RunProcess(due: int)

  /** The fields of the module; `t0` and `frames` record when the frames of the running
      session were processed. */
  datatype State = State(
    playInitialized: bool, recInitialized: bool, playing: bool, recording: bool,
    thread: bool, queue: seq<Message>, started: bool, nextFrameTime: int,
    t0: int, frames: seq<int>)

  const IDLE := State(false, false, false, false, false, [], false, 0, 0, [])

  function UpdateProcessing(s: State, start: bool): State {
    if start then s.(thread := true, queue := s.queue + [StartProcess])
    else s.(thread := false, queue := [], started := false)
  }

  function Max(a: int, b: int): int { if a > b then a else b }

  /** A frame at time now; `later` is the clock when the next one is posted. */
  function ProcessFrame(s: State, now: int, later: int): State {
    var begun := if s.started then s else s.(started := true, nextFrameTime := now, t0 := now, frames := []);
    var next := begun.nextFrameTime + FRAME_MS;
    begun.(nextFrameTime := next, frames := begun.frames + [now],
           queue := begun.queue + [RunProcess(later + Max(next - later, 0))])
  }

  function Without<T>(q: seq<T>, i: nat): seq<T>
    requires i < |q|
  {
    q[..i] + q[i + 1..]
  }

  function Deliver(s: State, i: nat, now: int, later: int): State
    requires i < |s.queue|
  {
    var s' := s.(queue := Without(s.queue, i));
    match s.queue[i]
    case StartProcess => if s.started then s' else ProcessFrame(s', now, later)
    case RunProcess(_) => ProcessFrame(s', now, later)
  }

  /** The calls of the module's user, and the delivery of a queued message. */
  datatype Event =
    | InitPlayout | InitRecording
    | StartPlayout | StopPlayout | StartRecording | StopRecording
    | Delivery(i: nat, now: int, later: int)

  /** A message is delivered when it is due; of the order of the messages nothing is asked. */
  predicate Enabled(s: State, ev: Event) {
    ev.Delivery? ==>
      ev.i < |s.queue| && (s.queue[ev.i].RunProcess? ==> s.queue[ev.i].due <= ev.now)
  }

  function Step(s: State, ev: Event): State
    requires Enabled(s, ev)
  {
    match ev
    case InitPlayout => s.(playInitialized := true)
    case InitRecording => s.(recInitialized := true)
    case StartPlayout => if s.playInitialized then UpdateProcessing(s.(playing := true), true) else s
    case StopPlayout => UpdateProcessing(s.(playing := false), s.recording)
    case StartRecording => if s.recInitialized then UpdateProcessing(s.(recording := true), true) else s
    case StopRecording => UpdateProcessing(s.(recording := false), s.playing)
    case Delivery(i, now, later) => Deliver(s, i, now, later)
  }

  // ---------- the invariant ----------

  predicate AtMostOneRun(q: seq<Message>) {
    forall i, j :: 0 <= i < |q| && 0 <= j < |q| && q[i].RunProcess? && q[j].RunProcess? ==> i == j
  }

  predicate HasRun(q: seq<Message>) {
    exists i :: 0 <= i < |q| && q[i].RunProcess?
  }

  predicate HasStart(q: seq<Message>) {
    exists i :: 0 <= i < |q| && q[i].StartProcess?
  }

  /** No frame ran before its time, which does not depend on how late the ones before it
      were. */
  predicate OnTime(s: State) {
    && s.nextFrameTime == s.t0 + FRAME_MS * |s.frames|
    && forall n :: 0 <= n < |s.frames| ==> s.frames[n] >= s.t0 + FRAME_MS * n
  }

  predicate DueInTime(s: State) {
    forall i :: 0 <= i < |s.queue| && s.queue[i].RunProcess? ==> s.queue[i].due >= s.nextFrameTime
  }

  ghost predicate Inv(s: State) {
    && s.thread == (s.playing || s.recording)
    && (!s.thread ==> s.queue == [] && !s.started)
    && AtMostOneRun(s.queue) && DueInTime(s)
    && s.started == HasRun(s.queue)
    && (s.started ==> s.frames != [] && OnTime(s))
    && (s.thread && !s.started ==> HasStart(s.queue))
  }

  lemma WithoutAt<T>(q: seq<T>, i: nat, k: nat)
    requires i < |q| && k < |q| - 1
    ensures Without(q, i)[k] == q[if k < i then k else k + 1]
  {
  }

  lemma WithoutKeeps(q: seq<Message>, i: nat)
    requires i < |q| && AtMostOneRun(q)
    ensures AtMostOneRun(Without(q, i))
    ensures q[i].RunProcess? ==> !HasRun(Without(q, i))
    ensures q[i].StartProcess? ==> HasRun(Without(q, i)) == HasRun(q)
    ensures forall k :: 0 <= k < |Without(q, i)| ==> Without(q, i)[k] in q
  {
    var w := Without(q, i);
    forall k | 0 <= k < |w| ensures w[k] in q && (w[k].RunProcess? ==> q[if k < i then k else k + 1].RunProcess?) {
      WithoutAt(q, i, k);
    }
    forall j, k | 0 <= j < |w| && 0 <= k < |w| && w[j].RunProcess? && w[k].RunProcess? ensures j == k {
      WithoutAt(q, i, j);
      WithoutAt(q, i, k);
    }
    if q[i].StartProcess? && HasRun(q) {
      var k :| 0 <= k < |q| && q[k].RunProcess?;
      var k' := if k < i then k else k - 1;
      WithoutAt(q, i, k');
      assert w[k'].RunProcess?;
    }
  }

  lemma RunAdded(q: seq<Message>, due: int)
    requires !HasRun(q)
    ensures AtMostOneRun(q + [RunProcess(due)]) && HasRun(q + [RunProcess(due)])
  {
    var q' := q + [RunProcess(due)];
    assert q'[|q|].RunProcess?;
    assert forall i :: 0 <= i < |q| ==> q'[i] == q[i];
  }

  lemma StartAdded(q: seq<Message>)
    ensures var q' := q + [StartProcess];
            && HasStart(q') && HasRun(q') == HasRun(q) && (AtMostOneRun(q) ==> AtMostOneRun(q'))
  {
    var q' := q + [StartProcess];
    assert q'[|q|].StartProcess?;
    assert forall i :: 0 <= i < |q| ==> q'[i] == q[i];
  }

  lemma StartKeeps(s: State, playing: bool, recording: bool)
    requires Inv(s) && (playing || recording)
    ensures Inv(UpdateProcessing(s.(playing := playing, recording := recording), true))
  {
    StartAdded(s.queue);
  }

  lemma StopKeeps(s: State)
    requires Inv(s)
    ensures Inv(UpdateProcessing(s.(playing := false, recording := false), false))
  {
  }

  lemma FrameKeeps(s: State, now: int, later: int)
    requires s.thread == (s.playing || s.recording) && s.thread && !HasRun(s.queue)
    requires s.started ==> s.frames != [] && OnTime(s) && now >= s.nextFrameTime
    ensures Inv(ProcessFrame(s, now, later))
  {
    var s' := ProcessFrame(s, now, later);
    RunAdded(s.queue, later + Max(s'.nextFrameTime - later, 0));
    assert forall i :: 0 <= i < |s.queue| ==> s'.queue[i] == s.queue[i];
  }

  lemma DeliverKeeps(s: State, i: nat, now: int, later: int)
    requires Inv(s) && Enabled(s, Delivery(i, now, later))
    ensures Inv(Deliver(s, i, now, later))
  {
    var s' := s.(queue := Without(s.queue, i));
    WithoutKeeps(s.queue, i);
    match s.queue[i]
    case StartProcess =>
      if !s.started {
        FrameKeeps(s', now, later);
      }
    case RunProcess(_) =>
      FrameKeeps(s', now, later);
  }

  lemma StepKeeps(s: State, ev: Event)
    requires Inv(s) && Enabled(s, ev)
    ensures Inv(Step(s, ev))
  {
    match ev
    case InitPlayout =>
    case InitRecording =>
    case StartPlayout => StartKeeps(s, true, s.recording);
    case StopPlayout => if s.recording { StartKeeps(s, false, true); } else { StopKeeps(s); }
    case StartRecording => StartKeeps(s, s.playing, true);
    case StopRecording => if s.playing { StartKeeps(s, true, false); } else { StopKeeps(s); }
    case Delivery(i, now, later) => DeliverKeeps(s, i, now, later);
  }

  // ---------- whole runs ----------

  ghost predicate Run(ss: seq<State>, evs: seq<Event>) {
    && |ss| == |evs| + 1 && ss[0] == IDLE
    && forall i :: 0 <= i < |evs| ==> Enabled(ss[i], evs[i]) && ss[i + 1] == Step(ss[i], evs[i])
  }

  lemma {:induction false} RunKeeps(ss: seq<State>, evs: seq<Event>, i: nat)
    requires Run(ss, evs) && i < |ss|
    ensures Inv(ss[i])
  {
    if i > 0 {
      RunKeeps(ss, evs, i - 1);
      StepKeeps(ss[i - 1], evs[i - 1]);
    }
  }

  /** At every point of every run the thread exists exactly while audio is played or recorded;
      at most one message for a frame is queued, exactly one in a running session; frame n of a
      session did not run before t0 + 10n; and a thread without a session has a message that
      begins one. */
  lemma PumpIsSound(ss: seq<State>, evs: seq<Event>, i: nat)
    requires Run(ss, evs) && i < |ss|
    ensures var s := ss[i];
            && s.thread == (s.playing || s.recording)
            && AtMostOneRun(s.queue) && s.started == HasRun(s.queue)
            && (s.started ==> forall n :: 0 <= n < |s.frames| ==> s.frames[n] >= s.t0 + 10 * n)
            && (s.thread ==> HasRun(s.queue) || HasStart(s.queue))
  {
    RunKeeps(ss, evs, i);
  }

  /** Delay does not add up: after any run the next frame of a session is due at t0 + 10n, or
      at once when that time has passed. */
  lemma DelayDoesNotAccumulate(ss: seq<State>, evs: seq<Event>, i: nat)
    requires Run(ss, evs) && i < |evs| && evs[i].Delivery?
    requires ss[i].started ==> ss[i].queue[evs[i].i].RunProcess?
    ensures var s := ss[i + 1];
            && s.started && s.queue != []
            && s.queue[|s.queue| - 1] == RunProcess(if evs[i].later > s.t0 + 10 * |s.frames| then evs[i].later
                                                   else s.t0 + 10 * |s.frames|)
            && s.frames[|s.frames| - 1] == evs[i].now
            && (ss[i].started ==> s.t0 == ss[i].t0 && |s.frames| == |ss[i].frames| + 1)
            && (!ss[i].started ==> s.t0 == evs[i].now && |s.frames| == 1)
  {
    RunKeeps(ss, evs, i);
    RunKeeps(ss, evs, i + 1);
    assert Enabled(ss[i], evs[i]);
  }

  /** What each call changes: a call to start does nothing before its initialisation, and otherwise
      makes sure of the thread and queues a message; the last call to stop ends the thread. */
  lemma CallsChange(s: State, ev: Event)
    requires Inv(s) && !ev.Delivery?
    ensures var q := Step(s, ev);
            && (ev == InitPlayout ==> q == s.(playInitialized := true))
            && (ev == InitRecording ==> q == s.(recInitialized := true))
            && (ev == StartPlayout && !s.playInitialized ==> q == s)
            && (ev == StartRecording && !s.recInitialized ==> q == s)
            && (ev == StartPlayout && s.playInitialized ==>
                  q == s.(playing := true, thread := true, queue := s.queue + [StartProcess]))
            && (ev == StartRecording && s.recInitialized ==>
                  q == s.(recording := true, thread := true, queue := s.queue + [StartProcess]))
            && (ev == StopPlayout ==>
                  q.playing == false && q.recording == s.recording && q.thread == s.recording
                  && (!s.recording ==> q.queue == [] && !q.started)
                  && (s.recording ==> q.queue == s.queue + [StartProcess] && q.started == s.started))
            && (ev == StopRecording ==>
                  q.recording == false && q.playing == s.playing && q.thread == s.playing
                  && (!s.playing ==> q.queue == [] && !q.started)
                  && (s.playing ==> q.queue == s.queue + [StartProcess] && q.started == s.started))
  {
    match ev
    case InitPlayout =>
    case InitRecording =>
    case StartPlayout =>
    case StopPlayout =>
    case StartRecording =>
    case StopRecording =>
  }

  /** A message for a frame can be delivered from its due time on, and any other at once; another
      message to begin is without effect in a running session. */
  lemma DeliveredFromDue(s: State, i: nat, now: int, later: int)
    requires i < |s.queue|
    ensures Enabled(s, Delivery(i, now, later)) <==> (s.queue[i].RunProcess? ==> now >= s.queue[i].due)
    ensures s.queue[i].StartProcess? && s.started ==>
              Step(s, Delivery(i, now, later)) == s.(queue := s.queue[..i] + s.queue[i + 1..])
  {
  }

  // ---------- the module ----------

  /** The module's object with the queue of its thread. */
  class CaptureModule {
    var playInitialized: bool
    var recInitialized: bool
    var playing: bool
    var recording: bool
    var thread: bool
    var queue: seq<Message>
    var started: bool
    var nextFrameTime: int
    ghost var t0: int
    ghost var frames: seq<int>

    ghost function Abs(): State
      reads this
    {
      State(playInitialized, recInitialized, playing, recording, thread, queue, started, nextFrameTime, t0, frames)
    }

    constructor ()
      ensures Abs() == IDLE
    {
      playInitialized, recInitialized, playing, recording, thread := false, false, false, false, false;
      queue, started, nextFrameTime, t0, frames := [], false, 0, 0, [];
    }

    method Update(start: bool)
      requires !thread ==> queue == []
      modifies this`thread, this`queue, this`started
      ensures Abs() == UpdateProcessing(old(Abs()), start)
    {
      if start {
        if !thread {
          thread, queue := true, [];
        }
        queue := queue + [StartProcess];
      } else {
        if thread {
          thread, queue := false, [];
        }
        started := false;
      }
    }

    method StartPlayout() returns (res: int)
      requires Inv(Abs())
      modifies this
      ensures Abs() == Step(old(Abs()), Event.StartPlayout) && Inv(Abs())
      ensures res == if old(playInitialized) then 0 else -1
    {
      ghost var s := Abs();
      StepKeeps(s, Event.StartPlayout);
      if !playInitialized {
        return -1;
      }
      playing := true;
      Update(true);
      return 0;
    }

    method StopPlayout()
      requires Inv(Abs())
      modifies this
      ensures Abs() == Step(old(Abs()), Event.StopPlayout) && Inv(Abs())
    {
      ghost var s := Abs();
      StepKeeps(s, Event.StopPlayout);
      playing := false;
      Update(recording || playing);
    }

    method StartRecording() returns (res: int)
      requires Inv(Abs())
      modifies this
      ensures Abs() == Step(old(Abs()), Event.StartRecording) && Inv(Abs())
      ensures res == if old(recInitialized) then 0 else -1
    {
      ghost var s := Abs();
      StepKeeps(s, Event.StartRecording);
      if !recInitialized {
        return -1;
      }
      recording := true;
      Update(true);
      return 0;
    }

    method StopRecording()
      requires Inv(Abs())
      modifies this
      ensures Abs() == Step(old(Abs()), Event.StopRecording) && Inv(Abs())
    {
      ghost var s := Abs();
      StepKeeps(s, Event.StopRecording);
      recording := false;
      Update(recording || playing);
    }

    method ProcessFrameP(now: int, later: int)
      modifies this
      ensures Abs() == ProcessFrame(old(Abs()), now, later)
    {
      if !started {
        nextFrameTime, t0, frames := now, now, [];
        started := true;
      }
      frames := frames + [now];
      nextFrameTime := nextFrameTime + FRAME_MS;
      var wait := if nextFrameTime > later then nextFrameTime - later else 0;
      queue := queue + [RunProcess(later + wait)];
    }

    /** The thread takes a message from its queue. */
    method OnMessage(i: nat, now: int, later: int)
      requires Inv(Abs()) && Enabled(Abs(), Delivery(i, now, later))
      modifies this
      ensures Abs() == Step(old(Abs()), Delivery(i, now, later)) && Inv(Abs())
    {
      ghost var s := Abs();
      StepKeeps(s, Delivery(i, now, later));
      var m := queue[i];
      queue := queue[..i] + queue[i + 1..];
      match m
      case StartProcess =>
        if !started {
          ProcessFrameP(now, later);
        }
      case RunProcess(_) =>
        ProcessFrameP(now, later);
    }
  }
}
