/**
 The download of a compiled script packs records, in order, into messages of at most 253
 bytes, as long as every record fits one.
 */
module AdsiPacking {

  type Record = seq<int>

  const LIMIT := 253

  function Concat<T>(xs: seq<seq<T>>): seq<T> {
    if xs == [] then [] else Concat(xs[..|xs| - 1]) + xs[|xs| - 1]
  }

  lemma ConcatPush<T>(xs: seq<seq<T>>, x: seq<T>)
    ensures Concat(xs + [x]) == Concat(xs) + x
  {
    assert (xs + [x])[..|xs|] == xs;
  }

  lemma ConcatOne<T>(x: seq<T>)
    ensures Concat([x]) == x
  {
    assert [] + [x] == [x];
    ConcatPush([], x);
  }

  /** The number of bytes of some records. */
  function Total(rs: seq<Record>): (n: nat)
    ensures n == |Concat(rs)|
  {
    if rs == [] then 0 else Total(rs[..|rs| - 1]) + |rs[|rs| - 1]|
  }

  lemma TotalPush(rs: seq<Record>, r: Record)
    ensures Total(rs + [r]) == Total(rs) + |r|
  {
    assert (rs + [r])[..|rs|] == rs;
  }

  // ---------- the messages ----------

  /** The runs of records that were sent, and the records that wait in the buffer. */
  datatype Packing = Packing(runs: seq<seq<Record>>, pending: seq<Record>)

  function Add(p: Packing, r: Record): Packing {
    if Total(p.pending) + |r| > LIMIT then Packing(p.runs + [p.pending], [r])
    else Packing(p.runs, p.pending + [r])
  }

  function Pack(rs: seq<Record>): Packing {
    if rs == [] then Packing([], []) else Add(Pack(rs[..|rs| - 1]), rs[|rs| - 1])
  }

  /** What is left in the buffer is sent unless it is empty. */
  function Sent(rs: seq<Record>): seq<seq<Record>> {
    var p := Pack(rs);
    if Total(p.pending) > 0 then p.runs + [p.pending] else p.runs
  }

  ghost predicate Carry(messages: seq<seq<int>>, runs: seq<seq<Record>>) {
    |messages| == |runs| && forall i :: 0 <= i < |messages| ==> messages[i] == Concat(runs[i])
  }

  lemma AddCarries(p: Packing, r: Record, messages: seq<seq<int>>, buf: seq<int>)
    requires Carry(messages, p.runs) && buf == Concat(p.pending)
    ensures if |buf| + |r| > LIMIT then Carry(messages + [buf], Add(p, r).runs) && Concat(Add(p, r).pending) == r
            else Carry(messages, Add(p, r).runs) && Concat(Add(p, r).pending) == buf + r
  {
    ConcatPush(p.pending, r);
    ConcatOne(r);
  }

  /** The loop of the source, once for each kind of record. */
  method Transmit(records: seq<Record>) returns (messages: seq<seq<int>>)
    ensures Carry(messages, Sent(records))
  {
    messages := [];
    var buf: seq<int> := [];
    ghost var p := Packing([], []);
    for x := 0 to |records|
      invariant p == Pack(records[..x])
      invariant buf == Concat(p.pending) && Carry(messages, p.runs)
    {
      assert records[..x + 1][..x] == records[..x];
      AddCarries(p, records[x], messages, buf);
      p := Add(p, records[x]);
      if |buf| + |records[x]| > LIMIT {
        messages := messages + [buf];
        buf := records[x];
      } else {
        buf := buf + records[x];
      }
    }
    assert records[..|records|] == records;
    if buf != [] {
      messages := messages + [buf];
    }
  }

  // ---------- nothing is lost, added, split or moved ----------

  lemma AddKeepsOrder(p: Packing, r: Record)
    ensures Concat(Add(p, r).runs) + Add(p, r).pending == Concat(p.runs) + p.pending + [r]
  {
    ConcatPush(p.runs, p.pending);
  }

  lemma {:induction false} PackKeepsOrder(rs: seq<Record>)
    ensures Concat(Pack(rs).runs) + Pack(rs).pending == rs
  {
    if rs != [] {
      var front, r := rs[..|rs| - 1], rs[|rs| - 1];
      PackKeepsOrder(front);
      AddKeepsOrder(Pack(front), r);
      assert rs == front + [r];
    }
  }

  lemma {:induction false} NothingInNone(rs: seq<Record>)
    requires Total(rs) == 0
    ensures forall i :: 0 <= i < |rs| ==> rs[i] == []
  {
    if rs != [] {
      var front := rs[..|rs| - 1];
      NothingInNone(front);
      assert forall i :: 0 <= i < |front| ==> rs[i] == front[i];
    }
  }

  /** The sent runs are the records in order; only empty records at the end may stay unsent. */
  lemma SentKeepsOrder(rs: seq<Record>)
    ensures var n := |Concat(Sent(rs))|;
            n <= |rs| && Concat(Sent(rs)) == rs[..n] && forall i :: n <= i < |rs| ==> rs[i] == []
  {
    var p := Pack(rs);
    PackKeepsOrder(rs);
    ConcatPush(p.runs, p.pending);
    if Total(p.pending) == 0 {
      NothingInNone(p.pending);
      var n := |Concat(p.runs)|;
      forall i | n <= i < |rs| ensures rs[i] == [] {
        assert rs[i] == p.pending[i - n];
      }
    }
  }

  lemma {:induction false} ConcatAppend(a: seq<Record>, b: seq<Record>)
    ensures Concat(a + b) == Concat(a) + Concat(b)
    decreases |b|
  {
    if b == [] {
      assert a + b == a;
    } else {
      var t, r := b[..|b| - 1], b[|b| - 1];
      ConcatAppend(a, t);
      assert a + b == (a + t) + [r];
      ConcatPush(a + t, r);
    }
  }

  lemma {:induction false} CarriedBytes(messages: seq<seq<int>>, runs: seq<seq<Record>>)
    requires Carry(messages, runs)
    ensures Concat(messages) == Concat(Concat(runs))
  {
    if runs != [] {
      var n := |runs| - 1;
      CarriedBytes(messages[..n], runs[..n]);
      ConcatAppend(Concat(runs[..n]), runs[n]);
    }
  }

  lemma {:induction false} EmptyTail(rs: seq<Record>, n: nat)
    requires n <= |rs| && forall i :: n <= i < |rs| ==> rs[i] == []
    ensures Concat(rs[..n]) == Concat(rs)
    decreases |rs|
  {
    if n == |rs| {
      assert rs[..n] == rs;
    } else {
      var t := rs[..|rs| - 1];
      EmptyTail(t, n);
      assert t[..n] == rs[..n];
    }
  }

  /** The bytes of the messages are the bytes of the records, whatever their lengths. */
  lemma BytesAreConserved(rs: seq<Record>, messages: seq<seq<int>>)
    requires Carry(messages, Sent(rs))
    ensures Concat(messages) == Concat(rs)
  {
    CarriedBytes(messages, Sent(rs));
    SentKeepsOrder(rs);
    EmptyTail(rs, |Concat(Sent(rs))|);
  }

  // ---------- the limit ----------

  predicate AllFit(rs: seq<Record>) {
    forall i :: 0 <= i < |rs| ==> |rs[i]| <= LIMIT
  }

  predicate RunsFit(runs: seq<seq<Record>>) {
    forall i :: 0 <= i < |runs| ==> Total(runs[i]) <= LIMIT
  }

  predicate NoneEmpty(runs: seq<seq<Record>>) {
    forall i :: 0 <= i < |runs| ==> Total(runs[i]) > 0
  }

  ghost predicate Fits(p: Packing) {
    RunsFit(p.runs) && NoneEmpty(p.runs) && Total(p.pending) <= LIMIT
  }

  lemma AddFits(p: Packing, r: Record)
    requires Fits(p) && |r| <= LIMIT
    ensures Fits(Add(p, r))
  {
    TotalPush(p.pending, r);
    TotalPush([], r);
    assert [] + [r] == [r];
  }

  lemma {:induction false} PackFits(rs: seq<Record>)
    requires AllFit(rs)
    ensures Fits(Pack(rs))
  {
    if rs != [] {
      PackFits(rs[..|rs| - 1]);
      AddFits(Pack(rs[..|rs| - 1]), rs[|rs| - 1]);
    }
  }

  lemma {:induction false} MemberFits(rs: seq<Record>, i: nat)
    requires i < |rs|
    ensures |rs[i]| <= Total(rs)
  {
    if i < |rs| - 1 {
      MemberFits(rs[..|rs| - 1], i);
    }
  }

  lemma {:induction false} RunsFitMembers(runs: seq<seq<Record>>)
    requires RunsFit(runs)
    ensures AllFit(Concat(runs))
  {
    if runs != [] {
      var n := |runs| - 1;
      RunsFitMembers(runs[..n]);
      forall i | 0 <= i < |runs[n]| ensures |runs[n][i]| <= LIMIT {
        MemberFits(runs[n], i);
      }
    }
  }

  /** Every message keeps the limit exactly when every record does; then no message is empty. */
  lemma MessagesFitIffRecordsDo(rs: seq<Record>)
    ensures RunsFit(Sent(rs)) <==> AllFit(rs)
    ensures AllFit(rs) ==> NoneEmpty(Sent(rs))
  {
    if AllFit(rs) {
      PackFits(rs);
    }
    if RunsFit(Sent(rs)) {
      RunsFitMembers(Sent(rs));
      SentKeepsOrder(rs);
      forall i | 0 <= i < |rs| ensures |rs[i]| <= LIMIT {
        if i < |Concat(Sent(rs))| {
          assert rs[i] == Concat(Sent(rs))[i];
        }
      }
    }
  }

  // ---------- no split is shorter ----------

  /** Some way to cut records into runs that keep the limit. */
  predicate Split(rs: seq<Record>, split: seq<seq<Record>>) {
    Concat(split) == rs && RunsFit(split) && forall i :: 0 <= i < |split| ==> split[i] != []
  }

  /** The sent runs are fewer than those of the split, or as many with no more bytes in the
      buffer than in the last run of the split. */
  predicate Ahead(p: Packing, split: seq<seq<Record>>)
    requires split != []
  {
    var n := |split| - 1;
    |p.runs| < n || (|p.runs| == n && Total(p.pending) <= Total(split[n]))
  }

  /** The next record goes to the last run of the split. */
  lemma AheadInRun(p: Packing, r: Record, split: seq<seq<Record>>, last: seq<Record>)
    requires Ahead(p, split + [last]) && Total(last + [r]) <= LIMIT
    ensures Ahead(Add(p, r), split + [last + [r]])
  {
    TotalPush(last, r);
    TotalPush(p.pending, r);
    TotalPush([], r);
    assert [] + [r] == [r];
  }

  /** The next record begins a run of the split. */
  lemma AheadInNewRun(p: Packing, r: Record, split: seq<seq<Record>>)
    requires split != [] && Ahead(p, split)
    ensures Ahead(Add(p, r), split + [[r]])
  {
  }

  lemma FirstRecord(r: Record)
    ensures Ahead(Add(Packing([], []), r), [[r]]) || |r| > LIMIT
  {
    assert [] + [r] == [r];
  }

  lemma FrontAndLast<T>(s: seq<T>)
    requires s != []
    ensures s == s[..|s| - 1] + [s[|s| - 1]]
  {
  }

  lemma FirstInRun(split: seq<seq<Record>>, r: Record)
    ensures split + [[] + [r]] == split + [[r]] && (split == [] ==> split + [[r]] == [[r]])
  {
    assert [] + [r] == [r];
  }

  lemma DropLast<T>(a: seq<T>, b: seq<T>, r: T, rs: seq<T>)
    requires rs == a + (b + [r])
    ensures rs != [] && rs[|rs| - 1] == r && rs[..|rs| - 1] == a + b
  {
  }

  lemma SplitParts(rs: seq<Record>, split: seq<seq<Record>>, run: seq<Record>)
    requires Split(rs, split + [run])
    ensures RunsFit(split) && Total(run) <= LIMIT && forall i :: 0 <= i < |split| ==> split[i] != []
  {
    assert (split + [run])[|split|] == run;
    assert forall i :: 0 <= i < |split| ==> (split + [run])[i] == split[i];
  }

  lemma SplitPush(rs: seq<Record>, split: seq<seq<Record>>, run: seq<Record>)
    requires RunsFit(split) && (forall i :: 0 <= i < |split| ==> split[i] != [])
    requires run != [] && Total(run) <= LIMIT && Concat(split) + run == rs
    ensures Split(rs, split + [run])
  {
    ConcatPush(split, run);
  }

  lemma PackStep(a: seq<Record>, b: seq<Record>, r: Record, rs: seq<Record>)
    requires rs == a + (b + [r])
    ensures Pack(rs) == Add(Pack(a + b), r)
  {
    DropLast(a, b, r, rs);
  }

  /** A split without its last record is a split of the records before it. */
  lemma SplitStep(rs: seq<Record>, split: seq<seq<Record>>, last: seq<Record>, r: Record)
    requires Split(rs, split + [last + [r]])
    ensures Pack(rs) == Add(Pack(Concat(split) + last), r) && Total(last + [r]) <= LIMIT
    ensures RunsFit(split) && forall i :: 0 <= i < |split| ==> split[i] != []
  {
    ConcatPush(split, last + [r]);
    PackStep(Concat(split), last, r, rs);
    SplitParts(rs, split, last + [r]);
  }

  lemma NothingAdded<T>(s: seq<T>, e: seq<T>)
    requires e == []
    ensures s + e == s
  {
  }

  lemma {:induction false} PackIsAhead(rs: seq<Record>, split: seq<seq<Record>>, last: seq<Record>, r: Record)
    requires Split(rs, split + [last + [r]])
    ensures Ahead(Pack(rs), split + [last + [r]])
    decreases |split|, |last|
  {
    var front := Concat(split) + last;
    SplitStep(rs, split, last, r);
    if last != [] {
      TotalPush(last, r);
      SplitPush(front, split, last);
      FrontAndLast(last);
      PackIsAhead(front, split, last[..|last| - 1], last[|last| - 1]);
      AheadInRun(Pack(front), r, split, last);
    } else {
      FirstInRun(split, r);
      NothingAdded(Concat(split), last);
      if split != [] {
        var run := split[|split| - 1];
        FrontAndLast(run);
        FrontAndLast(split);
        PackIsAhead(front, split[..|split| - 1], run[..|run| - 1], run[|run| - 1]);
        AheadInNewRun(Pack(front), r, split);
      } else {
        FirstRecord(r);
        MemberFits([r], 0);
      }
    }
  }

  /** The number of messages is the least possible: no way to cut the records, in order, into
      runs that keep the limit has fewer. */
  lemma FewestMessages(rs: seq<Record>, split: seq<seq<Record>>)
    requires Split(rs, split)
    ensures |Sent(rs)| <= |split|
  {
    if split != [] {
      var run := split[|split| - 1];
      FrontAndLast(run);
      FrontAndLast(split);
      PackIsAhead(rs, split[..|split| - 1], run[..|run| - 1], run[|run| - 1]);
    }
  }
}
