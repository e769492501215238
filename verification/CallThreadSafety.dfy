/**
 What every run of the call-thread pool keeps.
 */
module CallThreadSafety {
  import opened Basics
  import opened CallThreadPool

  predicate Parked(pc: WorkerPc) {
    pc.Polling? || pc.WantLeave? || pc.HasLeave?
  }

  predicate HoldsList(pc: StarterPc) {
    pc.Check? || pc.Try?
  }

  /** The worker whose lock a starter at `pc` holds. */
  function Held(pc: StarterPc): Option<Wid> {
    match pc
    case Recheck(w) => Some(w)
    case Write(w) => Some(w)
    case SetInUse(w) => Some(w)
    case SetCall(w) => Some(w)
    case _ => None
  }

  /** The worker that a starter at `pc` will inspect next while it holds the list lock. */
  function Scanned(pc: StarterPc): Option<Wid> {
    match pc
    case Check(cur) => cur
    case Try(w) => Some(w)
    case _ => None
  }

  /** A byte waits in the pipe of a worker that is still polling: the wake-up is not lost. */
  predicate Woken(k: Worker) {
    k.pc.Polling? ==> k.pipe >= 1
  }

  // ---------- the invariant, one starter and one worker at a time ----------

  predicate LocksOk(p: Pool, s: Sid, w: Wid) {
    && (s in p.starters ==> (HoldsList(p.starters[s]) <==> p.listLock == Some(S(s))))
    && (w in p.workers ==> (p.workers[w].pc.HasLeave? <==> p.listLock == Some(W(w))))
    && (p.listLock == Some(S(s)) ==> s in p.starters)
    && (p.listLock == Some(W(w)) ==> w in p.workers)
    && (s in p.starters && Held(p.starters[s]) == Some(w) ==> w in p.workers && p.workers[w].lock == Some(s))
    && (w in p.workers && p.workers[w].lock == Some(s) ==> s in p.starters && Held(p.starters[s]) == Some(w))
  }

  predicate StarterOk(p: Pool, s: Sid, w: Wid) {
    s in p.starters ==>
      var pc := p.starters[s];
      && (pc == WantList(Some(w)) ==> w in p.workers)
      && (Scanned(pc) == Some(w) || Held(pc) == Some(w) ==> w in p.idle && w in p.workers)
      && (pc == Write(w) || pc == SetInUse(w) ==> !p.workers[w].inUse)
      && (pc == SetInUse(w) ==> Woken(p.workers[w]))
      && (pc == SetCall(w) ==> p.workers[w].inUse && p.workers[w].call.None?)
  }

  predicate WorkerOk(p: Pool, w: Wid) {
    && (w in p.idle ==> w in p.workers)
    && (w in p.workers ==>
          var k := p.workers[w];
          && w in p.next && w in p.prev
          && (Parked(k.pc) <==> w in p.idle)
          && (k.call.Some? ==> k.inUse)
          && (k.pc.Serving? ==> k.call.Some?)
          && (k.pc.WantPush? ==> !k.inUse && p.prev[w].None?)
          && (Parked(k.pc) && k.inUse ==> Woken(k))
          && (k.readFailed ==> k.pc.WantLeave? || k.pc.HasLeave? || k.pc.Exited?)
          && (k.pc.Exited? && k.call.Some? ==> k.readFailed)
          && (Parked(k.pc) && k.inUse && k.call.None? ==>
                k.lock.Some? && k.lock.value in p.starters && p.starters[k.lock.value] == SetCall(w)))
  }

  predicate AccountOk(p: Pool, s: Sid, w: Wid) {
    && (w in p.workers && p.workers[w].call == Some(s) ==> s in p.owner && p.owner[s] == w && s !in p.finished)
    && (s in p.owner <==> s in p.starters && p.starters[s].Done?)
    && (s in p.finished ==> s in p.owner)
    && (s !in p.owner ==> p.served[s] == 0)
    && (s in p.owner && p.owner[s] == w ==>
          && w in p.workers
          && (s in p.finished || p.workers[w].call == Some(s))
          && p.served[s] == if s in p.finished || p.workers[w].pc.Serving? then 1 else 0)
  }

  predicate Local(p: Pool, s: Sid, w: Wid) {
    && LocksOk(p, s, w)
    && StarterOk(p, s, w)
    && WorkerOk(p, w)
    && AccountOk(p, s, w)
  }

  ghost predicate Inv(p: Pool) {
    && Linked(p.head, p.next, p.prev, p.idle)
    && forall s, w {:trigger Local(p, s, w)} :: Local(p, s, w)
  }

  /** The head pointer is read before the list lock is taken.  The step that takes the
      lock is timely when the worker that was read is on the list at that moment. */
  predicate Timely(p: Pool, l: Step) {
    l.StarterStep? && l.s in p.starters && p.starters[l.s].WantList? && p.starters[l.s].cur.Some?
    ==> p.starters[l.s].cur.value in p.idle
  }

  lemma WantListLocal(p: Pool, s: Sid, ok: bool, spare: Wid, x: Sid, y: Wid)
    requires Inv(p) && s in p.starters && p.starters[s].WantList? && StarterEnabled(p, p.starters[s], spare)
    requires Timely(p, StarterStep(s, ok, spare))
    ensures Local(StarterAct(p, s, ok, spare), x, y)
  {
    var pc := p.starters[s];
    assert Local(p, x, y) && Local(p, s, y);
    if pc.cur.Some? {
      assert Local(p, x, pc.cur.value) && Local(p, s, pc.cur.value);
    }
  }

  lemma CheckLocal(p: Pool, s: Sid, ok: bool, spare: Wid, x: Sid, y: Wid)
    requires Inv(p) && s in p.starters && p.starters[s].Check? && StarterEnabled(p, p.starters[s], spare)
    ensures Local(StarterAct(p, s, ok, spare), x, y)
  {
    var pc := p.starters[s];
    assert Local(p, x, y) && Local(p, s, y);
    if pc.cur.Some? {
      assert Local(p, x, pc.cur.value) && Local(p, s, pc.cur.value);
      NextIsIdle(p, pc.cur.value);
    }
  }

  lemma TryTakesLocal(p: Pool, s: Sid, ok: bool, spare: Wid, x: Sid, y: Wid)
    requires Inv(p) && s in p.starters && p.starters[s].Try? && StarterEnabled(p, p.starters[s], spare)
    requires p.workers[p.starters[s].w].lock.None?
    ensures Local(StarterAct(p, s, ok, spare), x, y)
  {
    var pc := p.starters[s];
    assert Local(p, x, y) && Local(p, s, y);
    assert Local(p, x, pc.w) && Local(p, s, pc.w);
  }

  lemma TryFailsLocal(p: Pool, s: Sid, ok: bool, spare: Wid, x: Sid, y: Wid)
    requires Inv(p) && s in p.starters && p.starters[s].Try? && StarterEnabled(p, p.starters[s], spare)
    requires p.workers[p.starters[s].w].lock.Some?
    ensures Local(StarterAct(p, s, ok, spare), x, y)
  {
    var pc := p.starters[s];
    assert Local(p, x, y) && Local(p, s, y);
    assert Local(p, x, pc.w) && Local(p, s, pc.w);
    NextIsIdle(p, pc.w);
  }

  lemma RecheckLocal(p: Pool, s: Sid, ok: bool, spare: Wid, x: Sid, y: Wid)
    requires Inv(p) && s in p.starters && p.starters[s].Recheck? && StarterEnabled(p, p.starters[s], spare)
    ensures Local(StarterAct(p, s, ok, spare), x, y)
  {
    var pc := p.starters[s];
    assert Local(p, x, y) && Local(p, s, y);
    assert Local(p, x, pc.w) && Local(p, s, pc.w);
  }

  lemma WriteLocal(p: Pool, s: Sid, ok: bool, spare: Wid, x: Sid, y: Wid)
    requires Inv(p) && s in p.starters && p.starters[s].Write? && StarterEnabled(p, p.starters[s], spare)
    ensures Local(StarterAct(p, s, ok, spare), x, y)
  {
    var pc := p.starters[s];
    assert Local(p, x, y) && Local(p, s, y);
    assert Local(p, x, pc.w) && Local(p, s, pc.w);
  }

  lemma SetInUseLocal(p: Pool, s: Sid, ok: bool, spare: Wid, x: Sid, y: Wid)
    requires Inv(p) && s in p.starters && p.starters[s].SetInUse? && StarterEnabled(p, p.starters[s], spare)
    ensures Local(StarterAct(p, s, ok, spare), x, y)
  {
    var pc := p.starters[s];
    assert Local(p, x, y) && Local(p, s, y);
    assert Local(p, x, pc.w) && Local(p, s, pc.w);
  }

  lemma SetCallLocal(p: Pool, s: Sid, ok: bool, spare: Wid, x: Sid, y: Wid)
    requires Inv(p) && s in p.starters && p.starters[s].SetCall? && StarterEnabled(p, p.starters[s], spare)
    ensures Local(StarterAct(p, s, ok, spare), x, y)
  {
    var pc := p.starters[s];
    assert Local(p, x, y) && Local(p, s, y);
    assert Local(p, x, pc.w) && Local(p, s, pc.w);
  }

  lemma CreateLocal(p: Pool, s: Sid, ok: bool, spare: Wid, x: Sid, y: Wid)
    requires Inv(p) && s in p.starters && p.starters[s].Create? && StarterEnabled(p, p.starters[s], spare)
    requires ok
    ensures Local(StarterAct(p, s, ok, spare), x, y)
  {
    var pc := p.starters[s];
    assert Local(p, x, y) && Local(p, s, y);
  }

  lemma CreateFailsLocal(p: Pool, s: Sid, ok: bool, spare: Wid, x: Sid, y: Wid)
    requires Inv(p) && s in p.starters && p.starters[s].Create? && StarterEnabled(p, p.starters[s], spare)
    requires !ok
    ensures Local(StarterAct(p, s, ok, spare), x, y)
  {
    var pc := p.starters[s];
    assert Local(p, x, y) && Local(p, s, y);
  }

  lemma ServingLocal(p: Pool, w: Wid, wake: Wake, x: Sid, y: Wid)
    requires Inv(p) && w in p.workers && p.workers[w].pc.Serving? && WorkerEnabled(p, w, p.workers[w], wake)
    ensures Local(WorkerAct(p, w, wake), x, y)
  {
    assert Local(p, x, y) && Local(p, x, w);
    if p.workers[w].call.Some? {
      assert Local(p, p.workers[w].call.value, w) && Local(p, p.workers[w].call.value, y);
    }
  }

  lemma WantPushLocal(p: Pool, w: Wid, wake: Wake, x: Sid, y: Wid)
    requires Inv(p) && w in p.workers && p.workers[w].pc.WantPush? && WorkerEnabled(p, w, p.workers[w], wake)
    ensures Local(WorkerAct(p, w, wake), x, y)
  {
    assert Local(p, x, y) && Local(p, x, w);
  }

  lemma PollingLocal(p: Pool, w: Wid, wake: Wake, x: Sid, y: Wid)
    requires Inv(p) && w in p.workers && p.workers[w].pc.Polling? && WorkerEnabled(p, w, p.workers[w], wake)
    ensures Local(WorkerAct(p, w, wake), x, y)
  {
    assert Local(p, x, y) && Local(p, x, w);
    match wake
    case ReadByte => LeavesPolling(p, w, p.workers[w].(pc := WantLeave, pipe := p.workers[w].pipe - 1), x, y);
    case ReadError => LeavesPolling(p, w, p.workers[w].(pc := WantLeave, readFailed := true), x, y);
    case NoByte => LeavesPolling(p, w, p.workers[w].(pc := WantLeave), x, y);
  }

  lemma LeavesPolling(p: Pool, w: Wid, k: Worker, x: Sid, y: Wid)
    requires w in p.workers && p.workers[w].pc.Polling? && Local(p, x, y) && Local(p, x, w)
    requires k.pc.WantLeave? && k == p.workers[w].(pc := k.pc, pipe := k.pipe, readFailed := k.readFailed)
    ensures Local(Put(p, w, k), x, y)
  {
  }

  lemma WantLeaveLocal(p: Pool, w: Wid, wake: Wake, x: Sid, y: Wid)
    requires Inv(p) && w in p.workers && p.workers[w].pc.WantLeave? && WorkerEnabled(p, w, p.workers[w], wake)
    ensures Local(WorkerAct(p, w, wake), x, y)
  {
    assert Local(p, x, y) && Local(p, x, w);
  }

  lemma ServesAgainLocal(p: Pool, w: Wid, wake: Wake, x: Sid, y: Wid)
    requires Inv(p) && w in p.workers && p.workers[w].pc.HasLeave? && WorkerEnabled(p, w, p.workers[w], wake)
    requires p.workers[w].call.Some? && !p.workers[w].readFailed
    ensures Local(WorkerAct(p, w, wake), x, y)
  {
    assert Local(p, x, y) && Local(p, x, w);
    if p.workers[w].call.Some? {
      assert Local(p, p.workers[w].call.value, w) && Local(p, p.workers[w].call.value, y);
    }
    WithoutMembers(p.idle, w);
    NextIsIdle(p, w);
  }

  lemma LeavesPoolLocal(p: Pool, w: Wid, wake: Wake, x: Sid, y: Wid)
    requires Inv(p) && w in p.workers && p.workers[w].pc.HasLeave? && WorkerEnabled(p, w, p.workers[w], wake)
    requires !(p.workers[w].call.Some? && !p.workers[w].readFailed)
    ensures Local(WorkerAct(p, w, wake), x, y)
  {
    assert Local(p, x, y) && Local(p, x, w);
    WithoutMembers(p.idle, w);
    NextIsIdle(p, w);
  }

  lemma StarterLinked(p: Pool, s: Sid, ok: bool, spare: Wid)
    requires Inv(p) && s in p.starters && StarterEnabled(p, p.starters[s], spare)
    ensures var q := StarterAct(p, s, ok, spare); Linked(q.head, q.next, q.prev, q.idle)
  {
    if p.starters[s].Create? && ok {
      assert Local(p, s, spare);
      KeepsLinked(p, NewWorker(At(p, s, Done), s, spare));
    }
  }

  lemma WorkerLinked(p: Pool, w: Wid, wake: Wake)
    requires Inv(p) && w in p.workers && WorkerEnabled(p, w, p.workers[w], wake)
    ensures var q := WorkerAct(p, w, wake); Linked(q.head, q.next, q.prev, q.idle)
  {
    assert Local(p, 0, w);
    match p.workers[w].pc
    case Serving => KeepsLinked(p, WorkerAct(p, w, wake));
    case WantPush => PushLinked(p, w);
    case HasLeave => UnlinkLinked(p, w);
    case _ =>
  }

  /** Pointers of workers that are off the list do not matter to the list. */
  lemma KeepsLinked(p: Pool, q: Pool)
    requires Linked(p.head, p.next, p.prev, p.idle) && q.head == p.head && q.idle == p.idle
    requires forall w :: w in p.idle && w in p.next && w in p.prev ==>
               w in q.next && w in q.prev && q.next[w] == p.next[w] && q.prev[w] == p.prev[w]
    ensures Linked(q.head, q.next, q.prev, q.idle)
  {
    forall i | 0 <= i < |q.idle|
      ensures NodeAt(q.next, q.prev, q.idle, i)
    {
      assert NodeAt(p.next, p.prev, p.idle, i);
    }
  }

  lemma StarterLocal(p: Pool, s: Sid, ok: bool, spare: Wid, x: Sid, y: Wid)
    requires Inv(p) && s in p.starters && StarterEnabled(p, p.starters[s], spare)
    requires Timely(p, StarterStep(s, ok, spare))
    ensures Local(StarterAct(p, s, ok, spare), x, y)
  {
    match p.starters[s]
    case WantList(_) => WantListLocal(p, s, ok, spare, x, y);
    case Check(_) => CheckLocal(p, s, ok, spare, x, y);
    case Try(w) =>
      if p.workers[w].lock.None? {
        TryTakesLocal(p, s, ok, spare, x, y);
      } else {
        TryFailsLocal(p, s, ok, spare, x, y);
      }
    case Recheck(_) => RecheckLocal(p, s, ok, spare, x, y);
    case Write(_) => WriteLocal(p, s, ok, spare, x, y);
    case SetInUse(_) => SetInUseLocal(p, s, ok, spare, x, y);
    case SetCall(_) => SetCallLocal(p, s, ok, spare, x, y);
    case Create =>
      if ok {
        CreateLocal(p, s, ok, spare, x, y);
      } else {
        CreateFailsLocal(p, s, ok, spare, x, y);
      }
  }

  lemma WorkerLocal(p: Pool, w: Wid, wake: Wake, x: Sid, y: Wid)
    requires Inv(p) && w in p.workers && WorkerEnabled(p, w, p.workers[w], wake)
    ensures Local(WorkerAct(p, w, wake), x, y)
  {
    match p.workers[w].pc
    case Serving => ServingLocal(p, w, wake, x, y);
    case WantPush => WantPushLocal(p, w, wake, x, y);
    case Polling => PollingLocal(p, w, wake, x, y);
    case WantLeave => WantLeaveLocal(p, w, wake, x, y);
    case HasLeave =>
      if p.workers[w].call.Some? && !p.workers[w].readFailed {
        ServesAgainLocal(p, w, wake, x, y);
      } else {
        LeavesPoolLocal(p, w, wake, x, y);
      }
  }

  lemma BeginLocal(p: Pool, s: Sid, x: Sid, y: Wid)
    requires Inv(p) && s !in p.starters
    ensures Local(At(p, s, WantList(p.head)), x, y)
  {
    assert Local(p, x, y) && Local(p, s, y);
    if p.head.Some? {
      assert p.head.value == p.idle[0];
    }
  }

  lemma StepKeepsInv(p: Pool, l: Step)
    requires Inv(p) && Enabled(p, l) && Timely(p, l)
    ensures Inv(Apply(p, l))
  {
    var q := Apply(p, l);
    forall x, y
      ensures Local(q, x, y)
    {
      match l
      case Begin(s) => BeginLocal(p, s, x, y);
      case StarterStep(s, ok, spare) => StarterLocal(p, s, ok, spare, x, y);
      case WorkerStep(w, wake) => WorkerLocal(p, w, wake, x, y);
    }
    match l
    case Begin(s) =>
    case StarterStep(s, ok, spare) => StarterLinked(p, s, ok, spare);
    case WorkerStep(w, wake) => WorkerLinked(p, w, wake);
  }

  // ---------- runs ----------

  ghost predicate Run(ps: seq<Pool>, ls: seq<Step>) {
    && |ps| == |ls| + 1
    && ps[0] == Init
    && forall i :: 0 <= i < |ls| ==> Enabled(ps[i], ls[i]) && ps[i + 1] == Apply(ps[i], ls[i])
  }

  /** Every worker that was read as the head is on the list when the list lock is taken. */
  ghost predicate TimelyRun(ps: seq<Pool>, ls: seq<Step>) {
    |ps| == |ls| + 1 && forall i :: 0 <= i < |ls| ==> Timely(ps[i], ls[i])
  }

  lemma {:induction false} RunKeepsInv(ps: seq<Pool>, ls: seq<Step>, i: nat)
    requires Run(ps, ls) && TimelyRun(ps, ls) && i < |ps|
    ensures Inv(ps[i])
  {
    if i == 0 {
      assert forall x, y {:trigger Local(Init, x, y)} :: Local(Init, x, y);
    } else {
      RunKeepsInv(ps, ls, i - 1);
      StepKeepsInv(ps[i - 1], ls[i - 1]);
    }
  }
}
