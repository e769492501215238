/**
 What the pool's locks and pipes do over all runs: the list changes only in the hands of its
 holder, every byte that is read was written, and a parked worker takes the next call.
 */
module CallThreadBytes {
  import opened Basics
  import opened CallThreadPool
  import opened CallThreadSafety
  import opened CallThreadTheorems

  // ---------- mutual exclusion ----------

  /** The list as the threads see it: the head and the pointers of its members. */
  predicate SameList(p: Pool, q: Pool) {
    && q.head == p.head && q.idle == p.idle && q.listLock == p.listLock
    && forall w :: w in p.idle && w in p.next && w in p.prev ==>
         w in q.next && w in q.prev && q.next[w] == p.next[w] && q.prev[w] == p.prev[w]
  }

  lemma WorkerKeepsList(p: Pool, w: Wid, wake: Wake)
    requires Inv(p) && w in p.workers && WorkerEnabled(p, w, p.workers[w], wake)
    requires p.listLock.Some? && p.listLock != Some(W(w))
    ensures SameList(p, WorkerAct(p, w, wake))
  {
    assert Local(p, 0, w);
    match p.workers[w].pc
    case Serving =>
    case Polling =>
  }

  lemma StarterKeepsList(p: Pool, s: Sid, ok: bool, spare: Wid)
    requires Inv(p) && s in p.starters && StarterEnabled(p, p.starters[s], spare)
    requires p.listLock.Some? && p.listLock != Some(S(s))
    ensures SameList(p, StarterAct(p, s, ok, spare))
  {
    assert Local(p, s, spare);
    match p.starters[s]
    case WantList(_) =>
    case Recheck(_) =>
    case Write(_) =>
    case SetInUse(_) =>
    case SetCall(_) =>
    case Create =>
  }

  /** While a thread holds the list lock, no other thread changes the list or takes the lock. */
  lemma ListIsExclusive(p: Pool, l: Step)
    requires Inv(p) && Enabled(p, l) && p.listLock.Some? && !Acts(l, p.listLock.value)
    ensures SameList(p, Apply(p, l))
  {
    match l
    case Begin(_) =>
    case StarterStep(s, ok, spare) => StarterKeepsList(p, s, ok, spare);
    case WorkerStep(w, wake) => WorkerKeepsList(p, w, wake);
  }

  /** Without the list lock nobody changes the list but a worker that parks. */
  lemma OnlyParkingChangesList(p: Pool, l: Step)
    requires Inv(p) && Enabled(p, l) && p.listLock.None?
    ensures var q := Apply(p, l);
            q.idle == if l.WorkerStep? && p.workers[l.w].pc.WantPush? then [l.w] + p.idle else p.idle
  {
    match l
    case Begin(_) =>
    case StarterStep(s, ok, spare) =>
      assert Local(p, s, spare);
      match p.starters[s] {
      case WantList(_) =>
      case Recheck(_) =>
      case Write(_) =>
      case SetInUse(_) =>
      case SetCall(_) =>
      case Create =>
      }
    case WorkerStep(w, wake) =>
      assert Local(p, 0, w);
      match p.workers[w].pc {
      case Serving =>
      case WantPush =>
      case Polling =>
      case WantLeave =>
      }
  }

  /** A worker that starter s has locked keeps its call, its inUse and its place on the list as long
      as others act. */
  predicate Kept(p: Pool, q: Pool, w: Wid)
    requires w in p.workers
  {
    && w in q.workers && w in q.idle
    && q.workers[w].call == p.workers[w].call && q.workers[w].inUse == p.workers[w].inUse
    && q.workers[w].lock == p.workers[w].lock
  }

  lemma StarterKeepsLocked(p: Pool, x: Sid, ok: bool, spare: Wid, w: Wid)
    requires Inv(p) && x in p.starters && StarterEnabled(p, p.starters[x], spare)
    requires w in p.workers && p.workers[w].lock.Some? && p.workers[w].lock != Some(x)
    ensures Kept(p, StarterAct(p, x, ok, spare), w)
  {
    assert Local(p, x, w) && Local(p, p.workers[w].lock.value, w);
    match p.starters[x]
    case WantList(_) =>
    case Check(_) =>
    case Try(_) =>
    case Recheck(_) =>
    case Write(_) =>
    case SetInUse(_) =>
    case SetCall(_) =>
    case Create =>
  }

  lemma WorkerKeepsLocked(p: Pool, v: Wid, wake: Wake, w: Wid)
    requires Inv(p) && v in p.workers && WorkerEnabled(p, v, p.workers[v], wake)
    requires w in p.workers && p.workers[w].lock.Some?
    ensures Kept(p, WorkerAct(p, v, wake), w)
  {
    assert Local(p, p.workers[w].lock.value, w) && Local(p, p.workers[w].lock.value, v);
    match p.workers[v].pc
    case Serving =>
    case WantPush =>
    case Polling =>
    case WantLeave =>
    case HasLeave => WithoutMembers(p.idle, v);
  }

  lemma WorkerIsExclusive(p: Pool, l: Step, w: Wid, s: Sid)
    requires Inv(p) && Enabled(p, l) && w in p.workers && p.workers[w].lock == Some(s) && !Acts(l, S(s))
    ensures Kept(p, Apply(p, l), w)
  {
    match l
    case Begin(x) => assert Local(p, s, w);
    case StarterStep(x, ok, spare) => StarterKeepsLocked(p, x, ok, spare, w);
    case WorkerStep(v, wake) => WorkerKeepsLocked(p, v, wake, w);
  }

  // ---------- who can act ----------

  /** A thread that has not finished can act unless it waits for a lock; a parked worker reads a byte
      exactly when there is one. */
  lemma ActsUnlessWaiting(p: Pool, s: Sid, w: Wid, ok: bool, spare: Wid)
    requires Inv(p) && spare !in p.workers
    ensures s in p.starters ==>
              (Enabled(p, StarterStep(s, ok, spare)) <==>
               !p.starters[s].Done? && !p.starters[s].Failed? && (p.starters[s].WantList? ==> p.listLock.None?))
    ensures w in p.workers ==>
              var k := p.workers[w];
              && (Enabled(p, WorkerStep(w, NoByte)) <==>
                  && !k.pc.Exited?
                  && (k.pc.WantPush? || k.pc.WantLeave? ==> p.listLock.None?)
                  && (k.pc.HasLeave? ==> k.lock.None?))
              && (k.pc.Polling? ==> (Enabled(p, WorkerStep(w, ReadByte)) <==> k.pipe > 0))
  {
    assert Local(p, s, w);
    if s in p.starters {
      var pc := p.starters[s];
      if Scanned(pc).Some? {
        assert Local(p, s, Scanned(pc).value);
      }
      if Held(pc).Some? {
        assert Local(p, s, Held(pc).value);
      }
    }
  }

  // ---------- the bytes in the pipes ----------

  /** The bytes written to the pipe of w in the first i steps. */
  function Written(ps: seq<Pool>, ls: seq<Step>, w: Wid, i: nat): nat
    requires i <= |ls| && |ps| == |ls| + 1
  {
    if i == 0 then 0
    else
      var p, l := ps[i - 1], ls[i - 1];
      Written(ps, ls, w, i - 1)
      + if l.StarterStep? && l.ok && l.s in p.starters && p.starters[l.s] == Write(w) then 1 else 0
  }

  /** The bytes that w has read in the first i steps. */
  function Taken(ps: seq<Pool>, ls: seq<Step>, w: Wid, i: nat): nat
    requires i <= |ls| && |ps| == |ls| + 1
  {
    if i == 0 then 0
    else
      var p, l := ps[i - 1], ls[i - 1];
      Taken(ps, ls, w, i - 1)
      + if l == WorkerStep(w, ReadByte) && w in p.workers && p.workers[w].pc.Polling? then 1 else 0
  }

  function PipeOf(p: Pool, w: Wid): nat {
    if w in p.workers then p.workers[w].pipe else 0
  }

  lemma StarterPipe(p: Pool, s: Sid, ok: bool, spare: Wid, w: Wid)
    requires s in p.starters && StarterEnabled(p, p.starters[s], spare)
    ensures PipeOf(StarterAct(p, s, ok, spare), w)
         == PipeOf(p, w) + if ok && p.starters[s] == Write(w) then 1 else 0
  {
    match p.starters[s]
    case WantList(_) =>
    case Check(_) =>
    case Try(_) =>
    case Recheck(_) =>
    case Write(_) =>
    case SetInUse(_) =>
    case SetCall(_) =>
    case Create =>
  }

  lemma WorkerPipe(p: Pool, v: Wid, wake: Wake, w: Wid)
    requires v in p.workers && WorkerEnabled(p, v, p.workers[v], wake)
    ensures PipeOf(WorkerAct(p, v, wake), w)
         == PipeOf(p, w) - if v == w && wake.ReadByte? && p.workers[w].pc.Polling? then 1 else 0
  {
    match p.workers[v].pc
    case Serving =>
    case WantPush =>
    case Polling =>
    case WantLeave =>
    case HasLeave =>
  }

  /** Every byte in a pipe was written by a starter that claimed the worker, and none is lost: what
      was written is what was read and what is still there. */
  lemma {:induction false} BytesAreConserved(ps: seq<Pool>, ls: seq<Step>, w: Wid, i: nat)
    requires Run(ps, ls) && i < |ps|
    ensures PipeOf(ps[i], w) + Taken(ps, ls, w, i) == Written(ps, ls, w, i)
  {
    if i > 0 {
      var p, l := ps[i - 1], ls[i - 1];
      BytesAreConserved(ps, ls, w, i - 1);
      assert ps[i] == Apply(p, l) && Enabled(p, l);
      match l
      case Begin(_) =>
      case StarterStep(s, ok, spare) => StarterPipe(p, s, ok, spare, w);
      case WorkerStep(v, wake) => WorkerPipe(p, v, wake, w);
    }
  }

  // ---------- what a starter returns ----------

  /** When no worker could be claimed a new one begins to serve the call, or the start fails and
      changes nothing else. */
  lemma NewWorkerOrFailure(p: Pool, s: Sid, ok: bool, spare: Wid)
    requires s in p.starters && p.starters[s].Create? && spare !in p.workers
    ensures var q := Apply(p, StarterStep(s, ok, spare));
            if ok then
              && q.starters == p.starters[s := Done]
              && q.workers == p.workers[spare := Worker(Serving, Some(s), true, None, 0, false)]
              && q.served == p.served + multiset{s}
            else q == p.(starters := p.starters[s := Failed])
  {
  }

  /** The worker that was claimed is given up when it is found in use or cannot be written to. */
  lemma ClaimIsGivenUp(p: Pool, s: Sid, ok: bool, spare: Wid, w: Wid)
    requires s in p.starters && w in p.workers
    requires (p.starters[s] == Recheck(w) && p.workers[w].inUse) || (p.starters[s] == Write(w) && !ok)
    ensures Apply(p, StarterStep(s, ok, spare))
         == p.(starters := p.starters[s := Create], workers := p.workers[w := p.workers[w].(lock := None)])
  {
  }

  // ---------- a call for a parked worker ----------

  const Claimed0: Worker := Worker(Polling, None, false, Some(1), 0, false)

  /** The second starter has locked the parked worker and is about to write to its pipe. */
  lemma SecondClaims() returns (ps: seq<Pool>, ls: seq<Step>)
    ensures Run(ps, ls) && TimelyRun(ps, ls)
    ensures ps[|ls|] == Single(Claimed0, map[0 := Done, 1 := Write(0)], None, true, map[0 := 0], multiset{0})
  {
    ps, ls := FirstCall();
    ps, ls := Extend(ps, ls, Begin(1));
    ps, ls := Extend(ps, ls, StarterStep(1, true, 0));
    ps, ls := Extend(ps, ls, StarterStep(1, true, 0));
    ps, ls := Extend(ps, ls, StarterStep(1, true, 0));
    ps, ls := Extend(ps, ls, StarterStep(1, true, 0));
  }

  /** The second starter has handed its call over, and the byte is in the pipe. */
  lemma SecondHandsOver() returns (ps: seq<Pool>, ls: seq<Step>)
    ensures Run(ps, ls) && TimelyRun(ps, ls)
    ensures ps[|ls|] == Single(Worker(Polling, Some(1), true, None, 1, false), map[0 := Done, 1 := Done], None, true,
                               map[0 := 0, 1 := 0], multiset{0})
  {
    ps, ls := SecondClaims();
    ps, ls := Extend(ps, ls, StarterStep(1, true, 0));
    ps, ls := Extend(ps, ls, StarterStep(1, true, 0));
    ps, ls := Extend(ps, ls, StarterStep(1, true, 0));
  }

  /** The parked worker reads the byte, leaves the list and serves the second call: no thread was
      created for it, and nothing is left in the pipe. */
  lemma ParkedWorkerServes() returns (ps: seq<Pool>, ls: seq<Step>)
    ensures Run(ps, ls) && TimelyRun(ps, ls)
    ensures ps[|ls|] == Single(Worker(Serving, Some(1), true, None, 0, false), map[0 := Done, 1 := Done], None, false,
                               map[0 := 0, 1 := 0], multiset{0, 1})
  {
    ps, ls := SecondHandsOver();
    ps, ls := Extend(ps, ls, WorkerStep(0, ReadByte));
    ps, ls := Extend(ps, ls, WorkerStep(0, NoByte));
    ps, ls := Extend(ps, ls, WorkerStep(0, NoByte));
  }

  /** When the pipe cannot be written to, the parked worker is left alone and a new one serves. */
  lemma FailedWriteCreates() returns (ps: seq<Pool>, ls: seq<Step>)
    ensures Run(ps, ls) && TimelyRun(ps, ls)
    ensures ps[|ls|].workers == map[0 := Idle, 1 := Worker(Serving, Some(1), true, None, 0, false)]
    ensures ps[|ls|].idle == [0] && ps[|ls|].served == multiset{0, 1}
    ensures ps[|ls|].starters == map[0 := Done, 1 := Done]
  {
    ps, ls := SecondClaims();
    ps, ls := Extend(ps, ls, StarterStep(1, false, 0));
    ps, ls := Extend(ps, ls, StarterStep(1, true, 1));
  }
}
