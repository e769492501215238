/**
 The idle list of the call threads on the heap: the records are linked through their own
 prev and next fields, and the list changes in place.  One method is one critical section.
 */
module CallThreadList {
  import opened Basics
  import P = CallThreadPool

  class CallThread {
    var prev: CallThread?
    var next: CallThread?
    var inUse: bool
    var locked: bool

    constructor ()
      ensures prev == null && next == null && !inUse && !locked
    {
      prev, next, inUse, locked := null, null, false, false;
    }
  }

  ghost function At(s: seq<CallThread>, i: int): CallThread? {
    if 0 <= i < |s| then s[i] else null
  }

  ghost predicate Distinct(s: seq<CallThread>) {
    forall i, j :: 0 <= i < j < |s| ==> s[i] != s[j]
  }

  /** The fields of the record at place i lead to its neighbours. */
  ghost predicate NodeAt(s: seq<CallThread>, i: nat)
    requires i < |s|
    reads s[i]
  {
    s[i].next == At(s, i + 1) && s[i].prev == At(s, i - 1)
  }

  ghost function Without(s: seq<CallThread>, k: nat): seq<CallThread>
    requires k < |s|
  {
    s[..k] + s[k + 1..]
  }

  lemma WithoutAt(s: seq<CallThread>, k: nat, i: int)
    requires k < |s| && Distinct(s)
    ensures Distinct(Without(s, k)) && |Without(s, k)| == |s| - 1
    ensures At(Without(s, k), i) == if i < k then At(s, i) else At(s, i + 1)
  {
  }

  class IdleList {
    var callThreads: CallThread?
    ghost var nodes: seq<CallThread>

    constructor ()
      ensures Valid() && nodes == []
    {
      callThreads, nodes := null, [];
    }

    /** Head, next and prev spell out `nodes`, without repetition. */
    ghost predicate Valid()
      reads this, nodes
    {
      && Distinct(nodes)
      && callThreads == At(nodes, 0)
      && forall i :: 0 <= i < |nodes| ==> NodeAt(nodes, i)
    }

    /** A worker that served its call puts itself in front. */
    method Park(w: CallThread)
      requires Valid() && w !in nodes
      modifies this, w, nodes
      ensures Valid() && nodes == [w] + old(nodes)
      ensures forall n :: n in nodes ==> (n == w && !n.inUse) || (n.inUse == old(n.inUse) && n.locked == old(n.locked))
    {
      w.prev, w.inUse := null, false;
      w.next := callThreads;
      callThreads := w;
      if w.next != null {
        w.next.prev := w;
      }
      nodes := [w] + nodes;
      forall i | 0 <= i < |nodes| ensures NodeAt(nodes, i) {
        assert i > 0 ==> old(NodeAt(nodes, i - 1)) && nodes[i] == old(nodes)[i - 1];
      }
    }

    /** A worker leaves the list, from wherever it stands. */
    method Leave(w: CallThread, ghost k: nat)
      requires Valid() && k < |nodes| && nodes[k] == w
      modifies this, nodes
      ensures Valid() && nodes == Without(old(nodes), k)
      ensures forall n :: n in old(nodes) ==> n.inUse == old(n.inUse) && n.locked == old(n.locked)
    {
      assert NodeAt(nodes, k);
      if w.prev != null {
        w.prev.next := w.next;
      } else {
        callThreads := w.next;
      }
      if w.next != null {
        w.next.prev := w.prev;
      }
      ghost var before := nodes;
      nodes := Without(nodes, k);
      WithoutAt(before, k, 0);
      forall i | 0 <= i < |nodes| ensures NodeAt(nodes, i) {
        WithoutAt(before, k, i - 1);
        WithoutAt(before, k, i);
        WithoutAt(before, k, i + 1);
        ghost var j := if i < k then i else i + 1;
        assert old(NodeAt(nodes, j)) && nodes[i] == before[j];
      }
    }

    /** The scan of a starter: it locks the first record that is not in use and whose lock is
        free, and no other. */
    method FindIdle() returns (cur: CallThread?)
      requires Valid()
      modifies nodes
      ensures Valid() && nodes == old(nodes)
      ensures forall n :: n in nodes ==> n.inUse == old(n.inUse) && n.locked == (old(n.locked) || n == cur)
      ensures cur == null ==> forall n :: n in nodes ==> n.inUse || n.locked
      ensures cur != null ==> exists i :: 0 <= i < |nodes| && nodes[i] == cur && !cur.inUse && !old(cur.locked)
                                && forall j :: 0 <= j < i ==> nodes[j].inUse || nodes[j].locked
    {
      cur := callThreads;
      ghost var i := 0;
      while cur != null && (cur.inUse || cur.locked)
        invariant 0 <= i <= |nodes| && cur == At(nodes, i)
        invariant forall j :: 0 <= j < i ==> nodes[j].inUse || nodes[j].locked
        decreases |nodes| - i
      {
        assert NodeAt(nodes, i);
        cur := cur.next;
        i := i + 1;
      }
      if cur != null {
        cur.locked := true;
        forall k | 0 <= k < |nodes| ensures NodeAt(nodes, k) {
          assert old(NodeAt(nodes, k));
        }
        assert 0 <= i < |nodes| && nodes[i] == cur;
      } else {
        assert i >= |nodes|;
      }
    }
  }

  // ---------- the list of the interleaved steps ----------

  /** The numbers of the records. */
  ghost function Ids(nodes: seq<CallThread>, id: map<CallThread, P.Wid>): seq<P.Wid>
    requires forall n :: n in nodes ==> n in id
  {
    seq(|nodes|, i requires 0 <= i < |nodes| => id[nodes[i]])
  }

  /** A pointer to a record, as the pool has it. */
  ghost function Pointer(n: CallThread?, id: map<CallThread, P.Wid>): Option<P.Wid> {
    if n != null && n in id then Some(id[n]) else None
  }

  /** The records on the heap and the pool have the same list. */
  ghost predicate Represents(list: IdleList, id: map<CallThread, P.Wid>, p: P.Pool)
    reads list, list.nodes
  {
    && list.Valid() && P.Linked(p.head, p.next, p.prev, p.idle)
    && (forall n :: n in list.nodes ==> n in id) && p.idle == Ids(list.nodes, id)
  }

  /** Then every pointer of the one is the pointer of the other. */
  lemma PointersAgree(list: IdleList, id: map<CallThread, P.Wid>, p: P.Pool)
    requires Represents(list, id, p)
    ensures Pointer(list.callThreads, id) == p.head
    ensures forall n :: n in list.nodes ==>
              && id[n] in p.next && p.next[id[n]] == Pointer(n.next, id)
              && id[n] in p.prev && p.prev[id[n]] == Pointer(n.prev, id)
  {
    var nodes := list.nodes;
    forall n | n in nodes
      ensures id[n] in p.next && p.next[id[n]] == Pointer(n.next, id)
      ensures id[n] in p.prev && p.prev[id[n]] == Pointer(n.prev, id)
    {
      var i :| 0 <= i < |nodes| && nodes[i] == n;
      assert NodeAt(nodes, i) && P.NodeAt(p.next, p.prev, p.idle, i);
    }
  }

  /** What Park leaves represents the pool after the step of parking. */
  lemma ParkRefinesPush(list: IdleList, before: seq<CallThread>, id: map<CallThread, P.Wid>, p: P.Pool, w: CallThread)
    requires list.Valid() && list.nodes == [w] + before && forall n :: n in list.nodes ==> n in id
    requires P.Linked(p.head, p.next, p.prev, p.idle) && p.idle == Ids(before, id)
    requires id[w] in p.workers && id[w] !in p.idle && id[w] in p.prev && p.prev[id[w]] == None
    ensures Represents(list, id, P.Push(p, id[w]))
  {
    P.PushLinked(p, id[w]);
    assert P.Push(p, id[w]).idle == Ids([w] + before, id);
  }

  lemma IndexIs(s: seq<P.Wid>, w: P.Wid, k: nat)
    requires P.Distinct(s) && k < |s| && s[k] == w
    ensures w in s && P.IndexOf(s, w) == k
  {
  }

  lemma WithoutIds(nodes: seq<CallThread>, id: map<CallThread, P.Wid>, k: nat)
    requires k < |nodes| && forall n :: n in nodes ==> n in id
    ensures forall n :: n in Without(nodes, k) ==> n in id
    ensures Ids(Without(nodes, k), id) == Ids(nodes, id)[..k] + Ids(nodes, id)[k + 1..]
  {
  }

  /** What Leave leaves represents the pool after the step of leaving. */
  lemma LeaveRefinesUnlink(list: IdleList, before: seq<CallThread>, k: nat, id: map<CallThread, P.Wid>, p: P.Pool)
    requires k < |before| && list.Valid() && list.nodes == Without(before, k) && forall n :: n in before ==> n in id
    requires P.Linked(p.head, p.next, p.prev, p.idle) && p.idle == Ids(before, id)
    requires var w := id[before[k]]; w in p.workers && w in p.next && w in p.prev
    ensures Represents(list, id, P.Unlink(p, id[before[k]]))
  {
    var w := id[before[k]];
    IndexIs(p.idle, w, k);
    P.UnlinkLinked(p, w);
    WithoutIds(before, id, k);
  }

  // ---------- the scan as steps of a starter ----------

  /** The next n actions of a starter while no other thread acts. */
  function Alone(p: P.Pool, s: P.Sid, n: nat): P.Pool
    decreases n
  {
    if n == 0 || s !in p.starters || !P.StarterEnabled(p, p.starters[s], 0) then p
    else Alone(P.StarterAct(p, s, true, 0), s, n - 1)
  }

  predicate Free(p: P.Pool, w: P.Wid) {
    w in p.workers && !p.workers[w].inUse && p.workers[w].lock.None?
  }

  /** Where a scan from place i ends: at the first worker that is free, or behind the list. */
  function ScanEnd(p: P.Pool, i: nat): (pc: P.StarterPc)
    requires i <= |p.idle|
    ensures pc == P.Check(None) ==> forall j :: i <= j < |p.idle| ==> !Free(p, p.idle[j])
    ensures pc != P.Check(None) ==>
              exists k :: i <= k < |p.idle| && pc == P.Recheck(p.idle[k]) && Free(p, p.idle[k])
                          && forall j :: i <= j < k ==> !Free(p, p.idle[j])
    decreases |p.idle| - i
  {
    if i == |p.idle| then P.Check(None)
    else if Free(p, p.idle[i]) then P.Recheck(p.idle[i])
    else ScanEnd(p, i + 1)
  }

  /** The use and the locks of the records are those of the workers. */
  ghost predicate SameUse(list: IdleList, id: map<CallThread, P.Wid>, p: P.Pool)
    reads list, list.nodes
  {
    forall n :: n in list.nodes ==> n in id && (Free(p, id[n]) <==> !n.inUse && !n.locked)
  }

  /** The first record that is neither in use nor locked, as FindIdle chooses it, is the worker
      at which the scan ends. */
  lemma FindIdleIsScanEnd(list: IdleList, id: map<CallThread, P.Wid>, p: P.Pool, i: nat)
    requires Represents(list, id, p) && SameUse(list, id, p) && i <= |list.nodes|
    requires forall j :: 0 <= j < i ==> list.nodes[j].inUse || list.nodes[j].locked
    requires i < |list.nodes| ==> !list.nodes[i].inUse && !list.nodes[i].locked
    ensures ScanEnd(p, 0) == if i < |list.nodes| then P.Recheck(id[list.nodes[i]]) else P.Check(None)
  {
    assert forall j :: 0 <= j < |p.idle| ==> p.idle[j] == id[list.nodes[j]] && list.nodes[j] in list.nodes;
    if i < |list.nodes| {
      assert Free(p, p.idle[i]);
    }
  }

  lemma {:induction false} SameScanEnd(p: P.Pool, q: P.Pool, i: nat)
    requires p.idle == q.idle && p.workers == q.workers && i <= |p.idle|
    ensures ScanEnd(p, i) == ScanEnd(q, i)
    decreases |p.idle| - i
  {
    if i < |p.idle| {
      SameScanEnd(p, q, i + 1);
    }
  }

  function Place(p: P.Pool, i: nat): Option<P.Wid> {
    if i < |p.idle| then Some(p.idle[i]) else None
  }

  lemma SkipsUsed(p: P.Pool, s: P.Sid, w: P.Wid, n: nat)
    requires s in p.starters && p.starters[s] == P.Check(Some(w)) && w in p.workers && w in p.next
    requires p.workers[w].inUse
    ensures Alone(p, s, n + 1) == Alone(P.At(p, s, P.Check(p.next[w])), s, n)
  {
  }

  lemma SkipsLocked(p: P.Pool, s: P.Sid, w: P.Wid, n: nat)
    requires s in p.starters && p.starters[s] == P.Check(Some(w)) && w in p.workers && w in p.next
    requires !p.workers[w].inUse && p.workers[w].lock.Some?
    ensures Alone(p, s, n + 2) == Alone(P.At(p, s, P.Check(p.next[w])), s, n)
  {
    var q := P.At(p, s, P.Try(w));
    assert Alone(p, s, n + 2) == Alone(q, s, n + 1);
    assert P.StarterAct(q, s, true, 0) == P.At(p, s, P.Check(p.next[w]));
  }

  lemma TakesFree(p: P.Pool, s: P.Sid, w: P.Wid)
    requires s in p.starters && p.starters[s] == P.Check(Some(w)) && w in p.workers && w in p.next && Free(p, w)
    ensures s in Alone(p, s, 2).starters && Alone(p, s, 2).starters[s] == P.Recheck(w)
  {
    var q := P.At(p, s, P.Try(w));
    assert Alone(p, s, 2) == Alone(q, s, 1);
  }

  /** Under the list lock a starter that is alone ends its scan at the worker that FindIdle
      returns, or behind the list when there is none. */
  lemma {:induction false} ScanAlone(p: P.Pool, s: P.Sid, i: nat) returns (n: nat)
    requires P.Linked(p.head, p.next, p.prev, p.idle) && i <= |p.idle|
    requires forall w :: w in p.idle ==> w in p.workers
    requires s in p.starters && p.starters[s] == P.Check(Place(p, i))
    ensures s in Alone(p, s, n).starters && Alone(p, s, n).starters[s] == ScanEnd(p, i)
    decreases |p.idle| - i
  {
    if i == |p.idle| {
      n := 0;
    } else {
      var w := p.idle[i];
      assert P.NodeAt(p.next, p.prev, p.idle, i);
      if Free(p, w) {
        TakesFree(p, s, w);
        n := 2;
      } else {
        var q := P.At(p, s, P.Check(p.next[w]));
        n := ScanAlone(q, s, i + 1);
        SameScanEnd(p, q, i + 1);
        if p.workers[w].inUse {
          SkipsUsed(p, s, w, n);
          n := n + 1;
        } else {
          SkipsLocked(p, s, w, n);
          n := n + 2;
        }
      }
    }
  }
}
