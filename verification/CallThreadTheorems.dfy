/**
 The guarantees of the call-thread pool over all runs: what the invariant means to a
 caller, freedom from deadlock, and the two ways in which the guarantees can fail.
 */
module CallThreadTheorems {
  import opened Basics
  import opened CallThreadPool
  import opened CallThreadSafety

  // ---------- every started call is served by one worker ----------

  /** The call of s has not been taken by any worker. */
  ghost predicate Untaken(p: Pool, s: Sid) {
    p.served[s] == 0 && forall w :: w in p.workers ==> p.workers[w].call != Some(s)
  }

  /** The call of s is with worker w, and with no other. */
  ghost predicate WithWorker(p: Pool, s: Sid, w: Wid) {
    forall v :: v in p.workers ==> (p.workers[v].call == Some(s) <==> v == w)
  }

  /** Where the call of a starter that returned 0 is: served and over, being served,
      waiting for a woken worker, or lost by a worker that failed to read its pipe. */
  ghost predicate Placed(p: Pool, s: Sid) {
    if s in p.finished then
      p.served[s] == 1 && forall w :: w in p.workers ==> p.workers[w].call != Some(s)
    else
      && s in p.owner && p.owner[s] in p.workers
      && WithWorker(p, s, p.owner[s])
      && var k := p.workers[p.owner[s]];
      match k.pc
      case Serving => p.served[s] == 1
      case Exited => p.served[s] == 0 && k.readFailed
      case _ => p.served[s] == 0 && p.owner[s] in p.idle && k.inUse && Woken(k)
  }

  lemma CallsArePlaced(p: Pool, s: Sid)
    requires Inv(p)
    ensures p.served[s] <= 1
    ensures s in p.starters && p.starters[s].Done? ==> Placed(p, s)
    ensures s !in p.starters || !p.starters[s].Done? ==> Untaken(p, s)
  {
    assert Local(p, s, 0);
    if s in p.owner {
      assert Local(p, s, p.owner[s]);
    }
    forall w | w in p.workers && p.workers[w].call == Some(s)
      ensures s in p.owner && p.owner[s] == w && s !in p.finished
    {
      assert Local(p, s, w);
    }
  }

  /** In every run with timely reads of the list head, each call is taken by at most one
      worker, and a call whose start succeeded is never dropped silently. */
  lemma EachCallServedOnce(ps: seq<Pool>, ls: seq<Step>, i: nat, s: Sid)
    requires Run(ps, ls) && TimelyRun(ps, ls) && i < |ps|
    ensures ps[i].served[s] <= 1
    ensures s in ps[i].starters && ps[i].starters[s].Done? ==> Placed(ps[i], s)
    ensures s !in ps[i].starters || !ps[i].starters[s].Done? ==> Untaken(ps[i], s)
    ensures Linked(ps[i].head, ps[i].next, ps[i].prev, ps[i].idle)
  {
    RunKeepsInv(ps, ls, i);
    CallsArePlaced(ps[i], s);
  }

  /** The second test of inUse prevents a second claim: the store to `call` never
      overwrites a call. */
  lemma CallNeverOverwritten(p: Pool, s: Sid)
    requires Inv(p) && s in p.starters && p.starters[s].SetCall?
    ensures p.starters[s].w in p.workers && p.workers[p.starters[s].w].call == None
    ensures !p.workers[p.starters[s].w].pc.Exited?
  {
    assert Local(p, s, p.starters[s].w);
  }

  // ---------- a worker that leaves the list with a call ----------

  /** The worker has exited with the call. */
  predicate ExitedWith(p: Pool, w: Wid, s: Sid) {
    w in p.workers && p.workers[w].pc.Exited? && p.workers[w].call == Some(s)
  }

  lemma StarterLeavesExited(p: Pool, s: Sid, ok: bool, spare: Wid, w: Wid, c: Sid)
    requires Inv(p) && s in p.starters && StarterEnabled(p, p.starters[s], spare) && ExitedWith(p, w, c)
    ensures ExitedWith(StarterAct(p, s, ok, spare), w, c)
  {
    assert Local(p, s, w);
    match p.starters[s]
    case WantList(_) =>
    case Check(_) =>
    case Try(_) =>
    case Recheck(_) =>
    case Write(_) =>
    case SetInUse(_) =>
    case SetCall(_) =>
    case Create =>
  }

  lemma WorkerLeavesExited(p: Pool, v: Wid, wake: Wake, w: Wid, c: Sid)
    requires v in p.workers && WorkerEnabled(p, v, p.workers[v], wake) && ExitedWith(p, w, c)
    ensures ExitedWith(WorkerAct(p, v, wake), w, c)
  {
    match p.workers[v].pc
    case Serving =>
    case WantPush =>
    case Polling =>
    case WantLeave =>
    case HasLeave =>
  }

  /** Nobody touches the record of a worker that has exited. */
  lemma ExitedStays(p: Pool, l: Step, w: Wid, s: Sid)
    requires Inv(p) && Enabled(p, l) && ExitedWith(p, w, s)
    ensures ExitedWith(Apply(p, l), w, s)
  {
    match l
    case Begin(_) =>
    case StarterStep(x, ok, spare) => StarterLeavesExited(p, x, ok, spare, w, s);
    case WorkerStep(v, wake) => WorkerLeavesExited(p, v, wake, w, s);
  }

  lemma {:induction false} ExitedForGood(ps: seq<Pool>, ls: seq<Step>, i: nat, j: nat, w: Wid, s: Sid)
    requires Run(ps, ls) && TimelyRun(ps, ls) && i <= j < |ps| && ExitedWith(ps[i], w, s)
    ensures ExitedWith(ps[j], w, s)
    decreases j
  {
    if i < j {
      ExitedForGood(ps, ls, i, j - 1, w, s);
      RunKeepsInv(ps, ls, j - 1);
      ExitedStays(ps[j - 1], ls[j - 1], w, s);
    }
  }

  lemma ExitedIsUnserved(p: Pool, w: Wid, s: Sid)
    requires Inv(p) && ExitedWith(p, w, s)
    ensures p.served[s] == 0
  {
    assert Local(p, s, w);
  }

  lemma StarterServes(p: Pool, s: Sid, ok: bool, spare: Wid, c: Sid)
    requires s in p.starters && StarterEnabled(p, p.starters[s], spare)
    ensures StarterAct(p, s, ok, spare).served[c] >= p.served[c]
  {
    match p.starters[s]
    case WantList(_) =>
    case Check(_) =>
    case Try(_) =>
    case Recheck(_) =>
    case Write(_) =>
    case SetInUse(_) =>
    case SetCall(_) =>
    case Create =>
  }

  lemma WorkerServes(p: Pool, v: Wid, wake: Wake, c: Sid)
    requires v in p.workers && WorkerEnabled(p, v, p.workers[v], wake)
    ensures WorkerAct(p, v, wake).served[c] >= p.served[c]
  {
    match p.workers[v].pc
    case Serving =>
    case WantPush =>
    case Polling =>
    case WantLeave =>
    case HasLeave =>
  }

  lemma StepServes(p: Pool, l: Step, q: Pool, c: Sid)
    requires Enabled(p, l) && q == Apply(p, l)
    ensures q.served[c] >= p.served[c]
  {
    match l
    case Begin(_) =>
    case StarterStep(x, ok, spare) => StarterServes(p, x, ok, spare, c);
    case WorkerStep(v, wake) => WorkerServes(p, v, wake, c);
  }

  lemma {:induction false} GrowsOn(ps: seq<Pool>, i: nat, j: nat, c: Sid)
    requires i <= j < |ps|
    requires forall k :: 0 < k < |ps| ==> ps[k].served[c] >= ps[k - 1].served[c]
    ensures ps[j].served[c] >= ps[i].served[c]
    decreases j
  {
    if i < j {
      GrowsOn(ps, i, j - 1, c);
    }
  }

  lemma ServedForGood(ps: seq<Pool>, ls: seq<Step>, i: nat, j: nat, s: Sid)
    requires Run(ps, ls) && i <= j < |ps|
    ensures ps[j].served[s] >= ps[i].served[s]
  {
    forall k | 0 < k < |ps| ensures ps[k].served[s] >= ps[k - 1].served[s] {
      StepServes(ps[k - 1], ls[k - 1], ps[k], s);
    }
    GrowsOn(ps, i, j, s);
  }

  lemma Unlinking(p: Pool, w: Wid, wake: Wake, s: Sid)
    requires w in p.workers && p.workers[w].pc.HasLeave? && p.workers[w].call == Some(s)
    requires WorkerEnabled(p, w, p.workers[w], wake)
    ensures var q := WorkerAct(p, w, wake);
            if p.workers[w].readFailed then ExitedWith(q, w, s)
            else q.workers[w].pc.Serving? && q.workers[w].call == Some(s) && q.served[s] > 0
  {
  }

  /** A worker that leaves the list with a call, in step i of a run, serves the call if and only
      if its read has not failed: else its call is never served, whatever happens later. */
  lemma LeavingWorkerServes(ps: seq<Pool>, ls: seq<Step>, i: nat, j: nat, w: Wid, s: Sid)
    requires Run(ps, ls) && TimelyRun(ps, ls) && i < j < |ps|
    requires ls[i].WorkerStep? && ls[i].w == w && w in ps[i].workers
    requires ps[i].workers[w].pc.HasLeave? && ps[i].workers[w].call == Some(s)
    ensures if ps[i].workers[w].readFailed
            then ExitedWith(ps[j], w, s) && ps[j].served[s] == 0
            else ps[i + 1].workers[w].pc.Serving? && ps[i + 1].workers[w].call == Some(s) && ps[j].served[s] == 1
  {
    var p := ps[i];
    assert ps[i + 1] == Apply(p, ls[i]) && Enabled(p, ls[i]);
    Unlinking(p, w, ls[i].wake, s);
    RunKeepsInv(ps, ls, j);
    if p.workers[w].readFailed {
      ExitedForGood(ps, ls, i + 1, j, w, s);
      ExitedIsUnserved(ps[j], w, s);
    } else {
      ServedForGood(ps, ls, i + 1, j, s);
      CallsArePlaced(ps[j], s);
    }
  }

  // ---------- a woken worker reaches its call ----------

  /** How many actions a parked worker performs before it has left the list. */
  function LeaveDelay(pc: WorkerPc): nat {
    match pc
    case Polling => 3
    case WantLeave => 2
    case HasLeave => 1
    case _ => 0
  }

  /** The actions of worker w in the steps of a run from i to j. */
  function OwnSteps(ls: seq<Step>, w: Wid, i: nat, j: nat): nat
    requires i <= j <= |ls|
  {
    if i == j then 0 else OwnSteps(ls, w, i, j - 1) + if ls[j - 1].WorkerStep? && ls[j - 1].w == w then 1 else 0
  }

  /** The worker is parked with the call of s and n actions from leaving the list. */
  predicate Claimed(p: Pool, w: Wid, s: Sid, n: nat) {
    w in p.workers && Parked(p.workers[w].pc) && p.workers[w].call == Some(s) && LeaveDelay(p.workers[w].pc) == n
  }

  lemma StarterLeavesClaimed(p: Pool, x: Sid, ok: bool, spare: Wid, w: Wid, s: Sid, n: nat)
    requires Inv(p) && x in p.starters && StarterEnabled(p, p.starters[x], spare) && Claimed(p, w, s, n)
    ensures Claimed(StarterAct(p, x, ok, spare), w, s, n)
  {
    assert Local(p, x, w);
    match p.starters[x]
    case WantList(_) =>
    case Check(_) =>
    case Try(_) =>
    case Recheck(_) =>
    case Write(_) =>
    case SetInUse(_) =>
    case SetCall(_) =>
    case Create =>
  }

  lemma OtherLeavesClaimed(p: Pool, v: Wid, wake: Wake, w: Wid, s: Sid, n: nat)
    requires v in p.workers && WorkerEnabled(p, v, p.workers[v], wake) && v != w && Claimed(p, w, s, n)
    ensures Claimed(WorkerAct(p, v, wake), w, s, n)
  {
    match p.workers[v].pc
    case Serving =>
    case WantPush =>
    case Polling =>
    case WantLeave =>
    case HasLeave =>
  }

  lemma OwnStepOfClaimed(p: Pool, w: Wid, wake: Wake, s: Sid, n: nat)
    requires Claimed(p, w, s, n) && WorkerEnabled(p, w, p.workers[w], wake)
    ensures n > 0
    ensures var q := WorkerAct(p, w, wake);
            if n > 1 then Claimed(q, w, s, n - 1) else q.served[s] > 0 || ExitedWith(q, w, s)
  {
    match p.workers[w].pc
    case Polling =>
    case WantLeave =>
    case HasLeave => Unlinking(p, w, wake, s);
  }

  lemma StepOfClaimed(p: Pool, l: Step, w: Wid, s: Sid, n: nat)
    requires Inv(p) && Enabled(p, l) && Claimed(p, w, s, n)
    ensures var q := Apply(p, l);
            if !Acts(l, W(w)) then Claimed(q, w, s, n)
            else n > 0 && if n > 1 then Claimed(q, w, s, n - 1) else q.served[s] > 0 || ExitedWith(q, w, s)
  {
    match l
    case Begin(_) =>
    case StarterStep(x, ok, spare) => StarterLeavesClaimed(p, x, ok, spare, w, s, n);
    case WorkerStep(v, wake) =>
      if v == w {
        OwnStepOfClaimed(p, w, wake, s, n);
      } else {
        OtherLeavesClaimed(p, v, wake, w, s, n);
      }
  }

  /** The call has begun to be served, or its worker has exited with it. */
  predicate Reached(p: Pool, w: Wid, s: Sid) {
    p.served[s] > 0 || ExitedWith(p, w, s)
  }

  lemma ReachedStays(p: Pool, l: Step, w: Wid, s: Sid)
    requires Inv(p) && Enabled(p, l) && Reached(p, w, s)
    ensures Reached(Apply(p, l), w, s)
  {
    if ExitedWith(p, w, s) {
      ExitedStays(p, l, w, s);
    } else {
      StepServes(p, l, Apply(p, l), s);
    }
  }

  /** The call is n actions of its worker away, or has been reached. */
  predicate Near(p: Pool, w: Wid, s: Sid, n: nat) {
    if n > 0 then Claimed(p, w, s, n) else Reached(p, w, s)
  }

  function Nearer(n: nat, acts: bool): nat {
    if n > 0 && acts then n - 1 else n
  }

  lemma NearStep(p: Pool, l: Step, q: Pool, w: Wid, s: Sid, n: nat)
    requires Inv(p) && Enabled(p, l) && q == Apply(p, l) && Near(p, w, s, n)
    ensures Near(q, w, s, Nearer(n, Acts(l, W(w))))
  {
    if n > 0 {
      StepOfClaimed(p, l, w, s, n);
    } else {
      ReachedStays(p, l, w, s);
    }
  }

  lemma NearStepAt(ps: seq<Pool>, ls: seq<Step>, k: nat, w: Wid, s: Sid, n: nat)
    requires Run(ps, ls) && TimelyRun(ps, ls) && k < |ls| && Near(ps[k], w, s, n)
    ensures Near(ps[k + 1], w, s, Nearer(n, Acts(ls[k], W(w))))
  {
    RunKeepsInv(ps, ls, k);
    NearStep(ps[k], ls[k], ps[k + 1], w, s, n);
  }

  /** What comes nearer with each of the worker's own steps, and stays with all others. */
  lemma {:induction false} CountsDown(near: (nat, nat) -> bool, ls: seq<Step>, w: Wid, i: nat, j: nat, n: nat)
    requires i <= j <= |ls| && near(i, n)
    requires forall k: nat, m: nat :: i <= k < j && near(k, m) ==> near(k + 1, Nearer(m, Acts(ls[k], W(w))))
    ensures var own := OwnSteps(ls, w, i, j); near(j, if own < n then n - own else 0)
    decreases j
  {
    if i < j {
      var own := OwnSteps(ls, w, i, j - 1);
      var left := if own < n then n - own else 0;
      var k := j - 1;
      CountsDown(near, ls, w, i, k, n);
      assert near(k, left) && near(k + 1, Nearer(left, Acts(ls[k], W(w))));
      assert OwnSteps(ls, w, i, j) == own + if Acts(ls[j - 1], W(w)) then 1 else 0;
    }
  }

  /** Every action of a parked worker with a call takes it nearer to the call, and the actions of
      all others leave it where it is. */
  lemma ClaimedMovesOn(ps: seq<Pool>, ls: seq<Step>, i: nat, j: nat, w: Wid, s: Sid, n: nat)
    requires Run(ps, ls) && TimelyRun(ps, ls) && i <= j < |ps| && Near(ps[i], w, s, n)
    ensures var own := OwnSteps(ls, w, i, j); Near(ps[j], w, s, if own < n then n - own else 0)
  {
    var near := (k: nat, m: nat) => k < |ps| && Near(ps[k], w, s, m);
    forall k: nat, m: nat | i <= k < j && near(k, m) ensures near(k + 1, Nearer(m, Acts(ls[k], W(w)))) {
      NearStepAt(ps, ls, k, w, s, m);
    }
    CountsDown(near, ls, w, i, j, n);
  }

  /** A worker that was given a call while it is parked serves it after at most three actions of its
      own, whatever the others do in between, or has exited because its read failed. */
  lemma WokenWorkerServes(ps: seq<Pool>, ls: seq<Step>, i: nat, j: nat, w: Wid, s: Sid)
    requires Run(ps, ls) && TimelyRun(ps, ls) && i <= j < |ps|
    requires w in ps[i].workers && Parked(ps[i].workers[w].pc) && ps[i].workers[w].call == Some(s)
    requires OwnSteps(ls, w, i, j) >= LeaveDelay(ps[i].workers[w].pc)
    ensures ps[j].served[s] == 1 || (ExitedWith(ps[j], w, s) && ps[j].workers[w].readFailed)
    ensures NoReadError(ls) ==> ps[j].served[s] == 1
  {
    ClaimedMovesOn(ps, ls, i, j, w, s, LeaveDelay(ps[i].workers[w].pc));
    RunKeepsInv(ps, ls, j);
    CallsArePlaced(ps[j], s);
    assert Local(ps[j], s, w);
    if NoReadError(ls) && ExitedWith(ps[j], w, s) {
      ReadsSucceed(ps, ls, j, w);
    }
  }

  ghost predicate NoReadError(ls: seq<Step>) {
    forall i :: 0 <= i < |ls| ==> !(ls[i].WorkerStep? && ls[i].wake.ReadError?)
  }

  lemma {:induction false} ReadsSucceed(ps: seq<Pool>, ls: seq<Step>, i: nat, w: Wid)
    requires Run(ps, ls) && NoReadError(ls) && i < |ps| && w in ps[i].workers
    ensures !ps[i].workers[w].readFailed
  {
    if i > 0 {
      var p, l := ps[i - 1], ls[i - 1];
      assert ps[i] == Apply(p, l);
      if w in p.workers {
        ReadsSucceed(ps, ls, i - 1, w);
      }
      match l
      case Begin(_) =>
      case StarterStep(s, ok, spare) => StarterReadFailed(p, s, ok, spare, w);
      case WorkerStep(v, wake) => WorkerReadFailed(p, v, wake, w);
    }
  }

  lemma StarterReadFailed(p: Pool, s: Sid, ok: bool, spare: Wid, w: Wid)
    requires s in p.starters && StarterEnabled(p, p.starters[s], spare)
    requires w in p.workers ==> !p.workers[w].readFailed
    ensures var q := StarterAct(p, s, ok, spare); w in q.workers ==> !q.workers[w].readFailed
  {
    match p.starters[s]
    case WantList(_) =>
    case Check(_) =>
    case Try(_) =>
    case Recheck(_) =>
    case Write(_) =>
    case SetInUse(_) =>
    case SetCall(_) =>
    case Create =>
  }

  lemma WorkerReadFailed(p: Pool, v: Wid, wake: Wake, w: Wid)
    requires v in p.workers && WorkerEnabled(p, v, p.workers[v], wake) && !wake.ReadError?
    requires w in p.workers ==> !p.workers[w].readFailed
    ensures var q := WorkerAct(p, v, wake); w in q.workers ==> !q.workers[w].readFailed
  {
    match p.workers[v].pc
    case Serving =>
    case WantPush =>
    case Polling =>
    case WantLeave =>
    case HasLeave =>
  }

  /** When no read of a pipe fails, no worker exits with a call. */
  lemma NoCallLost(ps: seq<Pool>, ls: seq<Step>, i: nat, w: Wid)
    requires Run(ps, ls) && TimelyRun(ps, ls) && NoReadError(ls) && i < |ps|
    requires w in ps[i].workers && ps[i].workers[w].pc.Exited?
    ensures ps[i].workers[w].call == None
  {
    RunKeepsInv(ps, ls, i);
    ReadsSucceed(ps, ls, i, w);
    assert Local(ps[i], 0, w);
  }

  // ---------- locks ----------

  /** The thread's next action wants a lock that another thread holds. */
  predicate Waiting(p: Pool, t: Thread) {
    match t
    case S(s) => s in p.starters && p.starters[s].WantList? && p.listLock.Some?
    case W(w) => w in p.workers && match p.workers[w].pc
                                   case WantPush | WantLeave => p.listLock.Some?
                                   case HasLeave => p.workers[w].lock.Some?
                                   case _ => false
  }

  /** The thread at the end of the chain of waiting that starts with t. */
  function Blocker(p: Pool, t: Thread): Thread {
    var h := if t.W? && t.wid in p.workers && p.workers[t.wid].pc.HasLeave? then t
             else if p.listLock.Some? then p.listLock.value else t;
    if h.W? && h.wid in p.workers && p.workers[h.wid].lock.Some? then S(p.workers[h.wid].lock.value) else h
  }

  predicate Acts(l: Step, t: Thread) {
    match l
    case Begin(_) => false
    case StarterStep(s, _, _) => t == S(s)
    case WorkerStep(w, _) => t == W(w)
  }

  predicate CanStep(p: Pool, t: Thread) {
    match t
    case S(s) => Enabled(p, StarterStep(s, true, 0))
    case W(w) => Enabled(p, WorkerStep(w, NoByte))
  }

  /** Whoever waits, waits for a thread that can move. */
  lemma NoDeadlock(p: Pool, t: Thread)
    requires Inv(p) && Waiting(p, t)
    ensures Blocker(p, t) != t && CanStep(p, Blocker(p, t))
  {
    var h := if t.W? && p.workers[t.wid].pc.HasLeave? then t else p.listLock.value;
    var s := if h.S? then h.sid
             else if h.wid in p.workers && p.workers[h.wid].lock.Some? then p.workers[h.wid].lock.value else 0;
    var w := if h.W? then h.wid else 0;
    assert Local(p, s, w);
    if s in p.starters && Scanned(p.starters[s]).Some? {
      assert Local(p, s, Scanned(p.starters[s]).value);
      NextIsIdle(p, Scanned(p.starters[s]).value);
    }
    if t.W? {
      assert Local(p, s, t.wid);
    }
  }

  /** How many actions a starter performs before it lets go of the worker it holds. */
  function HoldDelay(pc: StarterPc): nat {
    match pc
    case Recheck(_) => 4
    case Write(_) => 3
    case SetInUse(_) => 2
    case SetCall(_) => 1
    case _ => 0
  }

  /** A bound on the actions that remain until the list lock is free. */
  function ListDelay(p: Pool): nat {
    match p.listLock
    case None => 0
    case Some(S(s)) =>
      if s !in p.starters then 0
      else (match p.starters[s]
            case Check(cur) =>
              if cur.Some? && cur.value in p.idle then 2 * (|p.idle| - IndexOf(p.idle, cur.value)) + 1 else 1
            case Try(w) => if w in p.idle then 2 * (|p.idle| - IndexOf(p.idle, w)) else 0
            case _ => 0)
    case Some(W(w)) =>
      if w in p.workers && p.workers[w].lock.Some? && p.workers[w].lock.value in p.starters
      then 1 + HoldDelay(p.starters[p.workers[w].lock.value]) else 1
  }

  lemma NextIndex(p: Pool, w: Wid)
    requires Linked(p.head, p.next, p.prev, p.idle) && w in p.idle
    ensures w in p.next
    ensures p.next[w].Some? ==>
              p.next[w].value in p.idle && IndexOf(p.idle, p.next[w].value) == IndexOf(p.idle, w) + 1
  {
    assert NodeAt(p.next, p.prev, p.idle, IndexOf(p.idle, w));
  }

  lemma ScanProgress(p: Pool, s: Sid, ok: bool, spare: Wid)
    requires Inv(p) && s in p.starters && StarterEnabled(p, p.starters[s], spare)
    requires p.starters[s].Check? || p.starters[s].Try?
    ensures var q := StarterAct(p, s, ok, spare); q.listLock.Some? ==> ListDelay(q) < ListDelay(p)
  {
    assert Local(p, s, 0);
    if Scanned(p.starters[s]).Some? {
      var w := Scanned(p.starters[s]).value;
      assert Local(p, s, w);
      NextIndex(p, w);
    }
  }

  /** What an action of s leaves for the holder of the list lock, when that is not s. */
  predicate ClaimMoves(p: Pool, q: Pool, s: Sid, w: Wid)
    requires s in p.starters && s in q.starters
  {
    && q.listLock == p.listLock && q.idle == p.idle
    && q.starters == p.starters[s := q.starters[s]]
    && (w in p.workers ==>
          && w in q.workers
          && (q.workers[w].lock == p.workers[w].lock || (p.workers[w].lock == Some(s) && q.workers[w].lock == None)))
    && HoldDelay(q.starters[s]) <= HoldDelay(p.starters[s])
    && (Held(p.starters[s]).Some? ==> HoldDelay(q.starters[s]) < HoldDelay(p.starters[s]))
  }

  lemma ClaimProgress(p: Pool, s: Sid, ok: bool, spare: Wid, w: Wid)
    requires Inv(p) && s in p.starters && StarterEnabled(p, p.starters[s], spare)
    requires !HoldsList(p.starters[s]) && p.listLock.Some?
    ensures s in StarterAct(p, s, ok, spare).starters
    ensures ClaimMoves(p, StarterAct(p, s, ok, spare), s, w)
  {
    assert Local(p, s, w);
    match p.starters[s]
    case WantList(_) =>
    case Recheck(v) => assert Local(p, s, v);
    case Write(v) => assert Local(p, s, v);
    case SetInUse(v) => assert Local(p, s, v);
    case SetCall(v) => assert Local(p, s, v);
    case Create =>
  }

  lemma HolderProgress(p: Pool, q: Pool, s: Sid)
    requires Inv(p) && s in p.starters && s in q.starters && !HoldsList(p.starters[s]) && p.listLock.Some?
    requires forall w :: ClaimMoves(p, q, s, w)
    ensures ListDelay(q) <= ListDelay(p)
    ensures Blocker(p, p.listLock.value) == S(s) ==> ListDelay(q) < ListDelay(p)
  {
    match p.listLock.value
    case W(w) =>
      assert Local(p, s, w) && ClaimMoves(p, q, s, w);
      if p.workers[w].lock.Some? {
        assert Local(p, p.workers[w].lock.value, w);
      }
    case S(t) =>
      assert Local(p, t, 0) && Local(p, s, 0) && ClaimMoves(p, q, s, 0);
  }

  /** A starter scans the list: no worker can take the list lock or change the list. */
  lemma WorkersWhileScanning(p: Pool, w: Wid, wake: Wake, s: Sid)
    requires Inv(p) && w in p.workers && WorkerEnabled(p, w, p.workers[w], wake)
    requires p.listLock == Some(S(s))
    ensures var q := WorkerAct(p, w, wake);
            q.listLock == p.listLock && ListDelay(q) == ListDelay(p) && Blocker(p, S(s)) != W(w)
  {
    assert Local(p, s, w);
  }

  /** A worker is about to leave the list: no other worker can change its lock. */
  lemma WorkersWhileLeaving(p: Pool, w: Wid, wake: Wake, v: Wid)
    requires Inv(p) && w in p.workers && WorkerEnabled(p, w, p.workers[w], wake)
    requires p.listLock == Some(W(v))
    ensures var q := WorkerAct(p, w, wake);
            q.listLock.Some? ==> ListDelay(q) == ListDelay(p) && Blocker(p, W(v)) != W(w)
  {
    assert Local(p, 0, w) && Local(p, 0, v);
  }

  lemma OtherWorkers(p: Pool, w: Wid, wake: Wake)
    requires Inv(p) && w in p.workers && WorkerEnabled(p, w, p.workers[w], wake)
    requires p.listLock.Some?
    ensures var q := WorkerAct(p, w, wake); q.listLock.Some? ==>
              ListDelay(q) == ListDelay(p) && Blocker(p, p.listLock.value) != W(w)
  {
    match p.listLock.value
    case S(s) => WorkersWhileScanning(p, w, wake, s);
    case W(v) => WorkersWhileLeaving(p, w, wake, v);
  }

  lemma ClaimKeepsDelay(p: Pool, s: Sid, ok: bool, spare: Wid)
    requires Inv(p) && s in p.starters && StarterEnabled(p, p.starters[s], spare)
    requires !HoldsList(p.starters[s]) && p.listLock.Some?
    ensures var q := StarterAct(p, s, ok, spare);
            && ListDelay(q) <= ListDelay(p)
            && (Blocker(p, p.listLock.value) == S(s) ==> ListDelay(q) < ListDelay(p))
  {
    var q := StarterAct(p, s, ok, spare);
    forall v
      ensures s in q.starters && ClaimMoves(p, q, s, v)
    {
      ClaimProgress(p, s, ok, spare, v);
    }
    HolderProgress(p, q, s);
  }

  lemma BeginKeepsDelay(p: Pool, s: Sid)
    requires Inv(p) && s !in p.starters && p.listLock.Some?
    ensures ListDelay(At(p, s, WantList(p.head))) == ListDelay(p)
  {
    assert Local(p, s, if p.listLock.value.W? then p.listLock.value.wid else 0);
  }

  /** While one thread keeps the list lock, every action of the thread that the others
      wait for brings its release closer, and no action of any thread defers it. */
  lemma ListLockIsReleased(p: Pool, l: Step)
    requires Inv(p) && Enabled(p, l) && p.listLock.Some? && Apply(p, l).listLock.Some?
    ensures ListDelay(Apply(p, l)) <= ListDelay(p)
    ensures Acts(l, Blocker(p, p.listLock.value)) ==> ListDelay(Apply(p, l)) < ListDelay(p)
  {
    match l
    case Begin(s) => BeginKeepsDelay(p, s);
    case StarterStep(s, ok, spare) =>
      if HoldsList(p.starters[s]) {
        ScanProgress(p, s, ok, spare);
      } else {
        ClaimKeepsDelay(p, s, ok, spare);
      }
    case WorkerStep(w, wake) => OtherWorkers(p, w, wake);
  }

  // ---------- the head pointer is read too early ----------

  /** Every worker that a starter inspects under the list lock is on the idle list. */
  ghost predicate ScansIdle(p: Pool) {
    forall s :: s in p.starters && Scanned(p.starters[s]).Some? ==> Scanned(p.starters[s]).value in p.idle
  }

  /** The starters look at parked workers only, in the whole run, exactly when every worker
      that was read as the head is on the list when the starter has the list lock. */
  lemma ScansIdleIffTimely(ps: seq<Pool>, ls: seq<Step>)
    requires Run(ps, ls)
    ensures (forall i :: 0 <= i < |ps| ==> ScansIdle(ps[i])) <==> TimelyRun(ps, ls)
  {
    if TimelyRun(ps, ls) {
      forall i | 0 <= i < |ps|
        ensures ScansIdle(ps[i])
      {
        RunKeepsInv(ps, ls, i);
        InvScansIdle(ps[i]);
      }
    }
    if forall i :: 0 <= i < |ps| ==> ScansIdle(ps[i]) {
      forall i | 0 <= i < |ls|
        ensures Timely(ps[i], ls[i])
      {
        assert ScansIdle(ps[i + 1]);
        TimelyBefore(ps[i], ls[i]);
      }
    }
  }

  lemma InvScansIdle(p: Pool)
    requires Inv(p)
    ensures ScansIdle(p)
  {
    forall s | s in p.starters && Scanned(p.starters[s]).Some?
      ensures Scanned(p.starters[s]).value in p.idle
    {
      assert Local(p, s, Scanned(p.starters[s]).value);
    }
  }

  lemma TimelyBefore(p: Pool, l: Step)
    requires Enabled(p, l) && ScansIdle(Apply(p, l))
    ensures Timely(p, l)
  {
    if l.StarterStep? && p.starters[l.s].WantList? {
      assert l.s in Apply(p, l).starters;
    }
  }

  lemma Extend(ps: seq<Pool>, ls: seq<Step>, l: Step) returns (qs: seq<Pool>, ms: seq<Step>)
    requires Run(ps, ls) && Enabled(ps[|ls|], l)
    ensures Run(qs, ms) && qs[|ms|] == Apply(ps[|ls|], l)
    ensures TimelyRun(ps, ls) && Timely(ps[|ls|], l) ==> TimelyRun(qs, ms)
  {
    var n, q := |ls|, Apply(ps[|ls|], l);
    qs, ms := ps + [q], ls + [l];
    forall i | 0 <= i < |ms| ensures Enabled(qs[i], ms[i]) && qs[i + 1] == Apply(qs[i], ms[i]) {
      RunsOn(ps, q, ls, l, i);
    }
  }

  lemma RunsOn(ps: seq<Pool>, q: Pool, ls: seq<Step>, l: Step, i: nat)
    requires |ps| == |ls| + 1 && i <= |ls|
    ensures (ps + [q])[i] == ps[i] && (ls + [l])[i] == if i < |ls| then ls[i] else l
    ensures (ps + [q])[i + 1] == if i < |ls| then ps[i + 1] else q
  {
  }

  function Single(k: Worker, starters: map<Sid, StarterPc>, lock: Option<Thread>, parked: bool,
                  owner: map<Sid, Wid>, served: multiset<Sid>): Pool
  {
    Pool(map[0 := k], starters, lock, if parked then Some(0) else None, map[0 := None], map[0 := None],
         if parked then [0] else [], owner, served, {0})
  }

  const NewCall: Worker := Worker(Serving, Some(0), true, None, 0, false)
  const Idle: Worker := Worker(Polling, None, false, None, 0, false)

  /** A first call is started and served by a new worker. */
  lemma FirstCallServed() returns (ps: seq<Pool>, ls: seq<Step>)
    ensures Run(ps, ls) && TimelyRun(ps, ls)
    ensures ps[|ls|] == Single(NewCall, map[0 := Done], None, false, map[0 := 0], multiset{0}).(finished := {})
  {
    ps, ls := [Init], [];
    ps, ls := Extend(ps, ls, Begin(0));
    ps, ls := Extend(ps, ls, StarterStep(0, true, 0));
    ps, ls := Extend(ps, ls, StarterStep(0, true, 0));
    ps, ls := Extend(ps, ls, StarterStep(0, true, 0));
  }

  /** The call is over, and its worker parks. */
  lemma FirstCall() returns (ps: seq<Pool>, ls: seq<Step>)
    ensures Run(ps, ls) && TimelyRun(ps, ls)
    ensures ps[|ls|] == Single(Idle, map[0 := Done], None, true, map[0 := 0], multiset{0})
  {
    ps, ls := FirstCallServed();
    ps, ls := Extend(ps, ls, WorkerStep(0, NoByte));
    ps, ls := Extend(ps, ls, WorkerStep(0, NoByte));
    assert ps[|ls|].idle == [0];
  }

  /** The read of the head really can come too early: here the worker it names times out
      and frees its record before the starter gets the list lock, and the starter then
      inspects the freed record. */
  lemma StaleHeadReachesFreedWorker() returns (ps: seq<Pool>, ls: seq<Step>)
    ensures Run(ps, ls)
    ensures var p := ps[|ls|];
            && 1 in p.starters && p.starters[1] == Check(Some(0))
            && 0 in p.workers && p.workers[0].pc == Exited
  {
    ps, ls := FirstCall();
    ps, ls := Extend(ps, ls, Begin(1));
    ps, ls := Extend(ps, ls, WorkerStep(0, NoByte));
    ps, ls := Extend(ps, ls, WorkerStep(0, NoByte));
    ps, ls := Extend(ps, ls, WorkerStep(0, NoByte));
    ps, ls := Extend(ps, ls, StarterStep(1, true, 0));
  }

  /** A failed read really loses a call: the starter has claimed the worker and returns 0,
      but the worker leaves its loop with the call unserved. */
  lemma FailedReadLosesCall() returns (ps: seq<Pool>, ls: seq<Step>)
    ensures Run(ps, ls) && TimelyRun(ps, ls)
    ensures var p := ps[|ls|];
            && 1 in p.starters && p.starters[1] == Done && p.served[1] == 0
            && 0 in p.workers && p.workers[0].pc == Exited && p.workers[0].call == Some(1)
  {
    ps, ls := FirstCall();
    ps, ls := Extend(ps, ls, Begin(1));
    ps, ls := Extend(ps, ls, StarterStep(1, true, 0));
    ps, ls := Extend(ps, ls, StarterStep(1, true, 0));
    ps, ls := Extend(ps, ls, StarterStep(1, true, 0));
    ps, ls := Extend(ps, ls, StarterStep(1, true, 0));
    var claimed := ps[|ls|];
    assert claimed.workers[0] == Idle.(lock := Some(1)) && claimed.starters[1] == Write(0);
    ps, ls := ServesNothing(ps, ls);
  }

  lemma ServesNothing(ps: seq<Pool>, ls: seq<Step>) returns (qs: seq<Pool>, ms: seq<Step>)
    requires Run(ps, ls) && TimelyRun(ps, ls)
    requires var p := ps[|ls|];
             && p.workers == map[0 := Idle.(lock := Some(1))] && p.starters == map[0 := Done, 1 := Write(0)]
             && p.listLock == None && p.next == p.prev == map[0 := None] && p.served == multiset{0}
    ensures Run(qs, ms) && TimelyRun(qs, ms)
    ensures var p := qs[|ms|];
            && 1 in p.starters && p.starters[1] == Done && p.served[1] == 0
            && 0 in p.workers && p.workers[0].pc == Exited && p.workers[0].call == Some(1)
  {
    qs, ms := Extend(ps, ls, StarterStep(1, true, 0));
    qs, ms := Extend(qs, ms, WorkerStep(0, ReadError));
    qs, ms := Extend(qs, ms, StarterStep(1, true, 0));
    qs, ms := Extend(qs, ms, StarterStep(1, true, 0));
    qs, ms := Extend(qs, ms, WorkerStep(0, NoByte));
    qs, ms := Extend(qs, ms, WorkerStep(0, NoByte));
  }
}
