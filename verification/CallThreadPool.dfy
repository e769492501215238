/**
 The pool of H.323 call threads: workers that serve one call after another and,
 between calls, park themselves on a doubly linked idle list; and starters, one for
 each call, that claim a parked worker or create a new one.

 The protocol is a state machine over the threads' atomic actions.  A lock is a field
 that names its holder, and a thread that wants a held lock has no step.  Statements
 that only touch what no other thread can reach at that point, and critical sections
 in which the thread cannot wait, are one action; every read or write that another
 thread can see in between is an action of its own.  A call is identified with the
 starter that hands it over.
 */
module CallThreadPool {
  import opened Basics

  type Wid = nat
  type Sid = nat

  datatype Thread = W(wid: Wid) | S(sid: Sid)

  /** Where a worker is in its do-while loop. */
  datatype WorkerPc =
    | Serving      // inside the call monitor
    | WantPush     // call, prev and inUse are reset; waits for the list lock, to park
    | Polling      // parked, waiting for a byte or the timeout
    | WantLeave    // waits for the list lock, to leave the list
    | HasLeave     // holds the list lock, waits for its own lock
    | Exited       // left the loop, its record is freed

  datatype Worker = Worker(
    pc: WorkerPc,
    call: Option<Sid>,
    inUse: bool,
    lock: Option<Sid>,     // the starter that holds this worker's lock
    pipe: nat,             // bytes written and not yet read
    readFailed: bool)      // the last read returned a negative result

  /** Where a starter is in its function; `cur` is the C variable of that name. */
  datatype StarterPc =
    | WantList(cur: Option<Wid>)     // has read the head, waits for the list lock
    | Check(cur: Option<Wid>)        // holds the list lock, at the loop condition
    | Try(w: Wid)                    // has read inUse == FALSE, about to trylock
    | Recheck(w: Wid)                // holds w's lock only, about to read inUse again
    | Write(w: Wid)
    | SetInUse(w: Wid)
    | SetCall(w: Wid)
    | Create
    | Done                           // returned 0
    | Failed                         // returned -1

  /** The pointer fields of the workers' records are the maps `next` and `prev`.
      `idle` is the sequence of workers that the pointers are meant to represent;
      `owner`, `served` and `finished` record what happened to each call.  No step
      is guarded by any of these four. */
  datatype Pool = Pool(
    workers: map<Wid, Worker>,
    starters: map<Sid, StarterPc>,
    listLock: Option<Thread>,
    head: Option<Wid>,
    next: map<Wid, Option<Wid>>,
    prev: map<Wid, Option<Wid>>,
    idle: seq<Wid>,
    owner: map<Sid, Wid>,
    served: multiset<Sid>,
    finished: set<Sid>)

  const Init := Pool(map[], map[], None, None, map[], map[], [], map[], multiset{}, {})

  // ---------- the steps ----------

  datatype Wake = ReadByte | ReadError | NoByte

  datatype Step =
    | Begin(s: Sid)                              // a call for s is to be started
    | StarterStep(s: Sid, ok: bool, spare: Wid)  // s performs its next action
    | WorkerStep(w: Wid, wake: Wake)             // w performs its next action

  predicate Enabled(p: Pool, l: Step) {
    match l
    case Begin(s) => s !in p.starters
    case StarterStep(s, ok, spare) => s in p.starters && StarterEnabled(p, p.starters[s], spare)
    case WorkerStep(w, wake) => w in p.workers && WorkerEnabled(p, w, p.workers[w], wake)
  }

  predicate StarterEnabled(p: Pool, pc: StarterPc, spare: Wid) {
    match pc
    case WantList(_) => p.listLock.None?
    case Check(cur) => cur.Some? ==> cur.value in p.workers && cur.value in p.next
    case Try(w) => w in p.workers && w in p.next
    case Recheck(w) => w in p.workers
    case Write(w) => w in p.workers
    case SetInUse(w) => w in p.workers
    case SetCall(w) => w in p.workers
    case Create => spare !in p.workers
    case Done | Failed => false
  }

  predicate WorkerEnabled(p: Pool, w: Wid, k: Worker, wake: Wake) {
    match k.pc
    case Serving => true
    case WantPush => p.listLock.None?
    case Polling => wake.ReadByte? ==> k.pipe > 0
    case WantLeave => p.listLock.None?
    case HasLeave => k.lock.None? && w in p.next && w in p.prev
    case Exited => false
  }

  function Apply(p: Pool, l: Step): Pool
    requires Enabled(p, l)
  {
    match l
    case Begin(s) => At(p, s, WantList(p.head))
    case StarterStep(s, ok, spare) => StarterAct(p, s, ok, spare)
    case WorkerStep(w, wake) => WorkerAct(p, w, wake)
  }

  function At(p: Pool, s: Sid, pc: StarterPc): Pool {
    p.(starters := p.starters[s := pc])
  }

  function Put(p: Pool, w: Wid, k: Worker): Pool {
    p.(workers := p.workers[w := k])
  }

  function StarterAct(p: Pool, s: Sid, ok: bool, spare: Wid): Pool
    requires s in p.starters && StarterEnabled(p, p.starters[s], spare)
  {
    match p.starters[s]
    case WantList(cur) => At(p, s, Check(cur)).(listLock := Some(S(s)))
    case Check(cur) =>
      if cur.None? then At(p, s, Create).(listLock := None)
      else if p.workers[cur.value].inUse then At(p, s, Check(p.next[cur.value]))
      else At(p, s, Try(cur.value))
    case Try(w) =>
      if p.workers[w].lock.None?
      then Put(At(p, s, Recheck(w)), w, p.workers[w].(lock := Some(s))).(listLock := None)
      else At(p, s, Check(p.next[w]))
    case Recheck(w) =>
      if p.workers[w].inUse then Put(At(p, s, Create), w, p.workers[w].(lock := None)) else At(p, s, Write(w))
    case Write(w) =>
      if ok then Put(At(p, s, SetInUse(w)), w, p.workers[w].(pipe := p.workers[w].pipe + 1))
      else Put(At(p, s, Create), w, p.workers[w].(lock := None))
    case SetInUse(w) => Put(At(p, s, SetCall(w)), w, p.workers[w].(inUse := true))
    case SetCall(w) =>
      Put(At(p, s, Done), w, p.workers[w].(call := Some(s), lock := None)).(owner := p.owner[s := w])
    case Create =>
      if ok then NewWorker(At(p, s, Done), s, spare) else At(p, s, Failed)
    case Done => p
    case Failed => p
  }

  function NewWorker(p: Pool, s: Sid, w: Wid): Pool {
    Put(p, w, Worker(Serving, Some(s), true, None, 0, false))
    .(next := p.next[w := None], prev := p.prev[w := None],
      owner := p.owner[s := w], served := p.served + multiset{s})
  }

  function WorkerAct(p: Pool, w: Wid, wake: Wake): Pool
    requires w in p.workers && WorkerEnabled(p, w, p.workers[w], wake)
  {
    var k := p.workers[w];
    match k.pc
    case Serving =>
      Put(p, w, k.(pc := WantPush, call := None, inUse := false))
      .(prev := p.prev[w := None], finished := p.finished + (if k.call.Some? then {k.call.value} else {}))
    case WantPush => Push(p, w)
    case Polling =>
      (match wake
       case ReadByte => Put(p, w, k.(pc := WantLeave, pipe := k.pipe - 1))
       case ReadError => Put(p, w, k.(pc := WantLeave, readFailed := true))
       case NoByte => Put(p, w, k.(pc := WantLeave)))
    case WantLeave => Put(p, w, k.(pc := HasLeave)).(listLock := Some(W(w)))
    case HasLeave => Unlink(p, w)
    case Exited => p
  }

  /** The worker links itself at the head of the idle list, under the list lock. */
  function Push(p: Pool, w: Wid): Pool
    requires w in p.workers
  {
    Put(p, w, p.workers[w].(pc := Polling))
    .(next := p.next[w := p.head],
      prev := if p.head.Some? then p.prev[p.head.value := Some(w)] else p.prev,
      head := Some(w),
      idle := [w] + p.idle)
  }

  /** The worker gets its own lock, unlinks itself, releases both locks and evaluates the
      condition of its loop. */
  function Unlink(p: Pool, w: Wid): Pool
    requires w in p.workers && w in p.next && w in p.prev
  {
    var k := p.workers[w];
    var again := k.call.Some? && !k.readFailed;
    Put(p, w, k.(pc := if again then Serving else Exited))
    .(next := if p.prev[w].Some? then p.next[p.prev[w].value := p.next[w]] else p.next,
      prev := if p.next[w].Some? then p.prev[p.next[w].value := p.prev[w]] else p.prev,
      head := if p.prev[w].Some? then p.head else p.next[w],
      idle := Without(p.idle, w),
      listLock := None,
      served := if again then p.served + multiset{k.call.value} else p.served)
  }

  function IndexOf(s: seq<Wid>, w: Wid): (k: nat)
    requires w in s
    ensures k < |s| && s[k] == w
  {
    if s[0] == w then 0 else 1 + IndexOf(s[1..], w)
  }

  function Without(s: seq<Wid>, w: Wid): seq<Wid> {
    if w in s then s[..IndexOf(s, w)] + s[IndexOf(s, w) + 1..] else s
  }

  // ---------- the idle list ----------

  function NextIn(s: seq<Wid>, i: nat): Option<Wid>
    requires i < |s|
  {
    if i + 1 < |s| then Some(s[i + 1]) else None
  }

  function PrevIn(s: seq<Wid>, i: nat): Option<Wid>
    requires i < |s|
  {
    if i > 0 then Some(s[i - 1]) else None
  }

  predicate NodeAt(next: map<Wid, Option<Wid>>, prev: map<Wid, Option<Wid>>, idle: seq<Wid>, i: nat)
    requires i < |idle|
  {
    && idle[i] in next && next[idle[i]] == NextIn(idle, i)
    && idle[i] in prev && prev[idle[i]] == PrevIn(idle, i)
  }

  ghost predicate Distinct(s: seq<Wid>) {
    forall i, j :: 0 <= i < j < |s| ==> s[i] != s[j]
  }

  /** The head, next and prev pointers spell out `idle`, without repetition. */
  ghost predicate Linked(head: Option<Wid>, next: map<Wid, Option<Wid>>, prev: map<Wid, Option<Wid>>,
                         idle: seq<Wid>)
  {
    && Distinct(idle)
    && head == (if idle == [] then None else Some(idle[0]))
    && forall i {:trigger NodeAt(next, prev, idle, i)} :: 0 <= i < |idle| ==> NodeAt(next, prev, idle, i)
  }

  lemma WithoutMembers(s: seq<Wid>, w: Wid)
    requires Distinct(s)
    ensures forall x :: x in Without(s, w) <==> x in s && x != w
  {
    if w in s {
      var k := IndexOf(s, w);
      assert s == s[..k] + [w] + s[k + 1..];
    }
  }

  lemma PushLinked(p: Pool, w: Wid)
    requires w in p.workers && w !in p.idle && w in p.prev && p.prev[w] == None
    requires Linked(p.head, p.next, p.prev, p.idle)
    ensures var q := Push(p, w); Linked(q.head, q.next, q.prev, q.idle)
  {
    var q := Push(p, w);
    forall i | 0 <= i < |q.idle|
      ensures NodeAt(q.next, q.prev, q.idle, i)
    {
      if i > 0 {
        assert NodeAt(p.next, p.prev, p.idle, i - 1);
      }
    }
  }

  lemma RemovedAt(s: seq<Wid>, k: nat, i: nat)
    requires k < |s| && i < |s| - 1
    ensures var q := s[..k] + s[k + 1..]; |q| == |s| - 1 && q[i] == s[if i < k then i else i + 1]
  {
  }

  lemma RemovedLength(s: seq<Wid>, k: nat)
    requires k < |s|
    ensures |s[..k] + s[k + 1..]| == |s| - 1
  {
  }

  lemma WithoutAt(s: seq<Wid>, w: Wid, i: nat)
    requires w in s && i < |s| - 1
    ensures |Without(s, w)| == |s| - 1
    ensures Without(s, w)[i] == s[if i < IndexOf(s, w) then i else i + 1]
  {
    RemovedAt(s, IndexOf(s, w), i);
  }

  lemma WithoutDistinct(s: seq<Wid>, w: Wid)
    requires Distinct(s) && w in s
    ensures Distinct(Without(s, w)) && |Without(s, w)| == |s| - 1
  {
    var q := Without(s, w);
    RemovedLength(s, IndexOf(s, w));
    forall i, j | 0 <= i < j < |q| ensures q[i] != q[j] {
      WithoutAt(s, w, i);
      WithoutAt(s, w, j);
    }
  }

  /** What stands at place i of a list without place k, and its neighbours. */
  lemma Neighbours(s: seq<Wid>, k: nat, q: seq<Wid>, i: nat)
    requires k < |s| && i < |s| - 1 && q == s[..k] + s[k + 1..]
    ensures var j := if i < k then i else i + 1;
            && |q| == |s| - 1 && q[i] == s[j]
            && NextIn(q, i) == (if j + 1 == k then NextIn(s, k) else NextIn(s, j))
            && PrevIn(q, i) == (if j == k + 1 then PrevIn(s, k) else PrevIn(s, j))
  {
    RemovedAt(s, k, i);
    if i > 0 {
      RemovedAt(s, k, i - 1);
    }
    if i + 1 < |s| - 1 {
      RemovedAt(s, k, i + 1);
    }
  }

  /** The neighbours of every node that stays, when w leaves. */
  lemma UnlinkNode(p: Pool, w: Wid, i: nat)
    requires Linked(p.head, p.next, p.prev, p.idle)
    requires w in p.workers && w in p.next && w in p.prev && w in p.idle && i < |p.idle| - 1
    ensures var q := Unlink(p, w); i < |q.idle| && NodeAt(q.next, q.prev, q.idle, i)
  {
    var k := IndexOf(p.idle, w);
    var j := if i < k then i else i + 1;
    Neighbours(p.idle, k, Without(p.idle, w), i);
    assert NodeAt(p.next, p.prev, p.idle, k) && NodeAt(p.next, p.prev, p.idle, j);
    var q, x := Unlink(p, w), p.idle[j];
    assert q.idle[i] == x != w && Without(p.idle, w) == q.idle;
    assert x in q.next && q.next[x] == if p.prev[w] == Some(x) then p.next[w] else p.next[x];
    assert x in q.prev && q.prev[x] == if p.next[w] == Some(x) then p.prev[w] else p.prev[x];
    assert p.prev[w] == Some(x) <==> j + 1 == k;
    assert p.next[w] == Some(x) <==> j == k + 1;
  }

  lemma UnlinkLinked(p: Pool, w: Wid)
    requires w in p.workers && w in p.idle && w in p.next && w in p.prev
    requires Linked(p.head, p.next, p.prev, p.idle)
    ensures var q := Unlink(p, w); Linked(q.head, q.next, q.prev, q.idle)
  {
    var q := Unlink(p, w);
    var k := IndexOf(p.idle, w);
    WithoutDistinct(p.idle, w);
    assert NodeAt(p.next, p.prev, p.idle, k);
    forall i | 0 <= i < |q.idle|
      ensures NodeAt(q.next, q.prev, q.idle, i)
    {
      UnlinkNode(p, w, i);
    }
    assert k == 0 ==> q.idle == p.idle[1..];
  }

  lemma NextIsIdle(p: Pool, w: Wid)
    requires Linked(p.head, p.next, p.prev, p.idle) && w in p.idle
    ensures w in p.next && (p.next[w].Some? ==> p.next[w].value in p.idle)
  {
    assert NodeAt(p.next, p.prev, p.idle, IndexOf(p.idle, w));
  }
}
