/**
 The search for the capability of a capture device that fits a request best.
 One pass keeps the best size and frame rate so far; which index is returned also depends
 on the pixel format and on the order of the list.
 */
module BestCapability {

  datatype VideoType = Unknown | I420 | YUY2 | YV12 | IYUV | ARGB | RGB24 | RGB565 | MJPEG | UYVY | NV21 | NV12 | BGRA

  datatype Capability = Capability(width: int, height: int, maxFps: int, videoType: VideoType)

  // ---------- what "best" means ----------

  /** x is a closer length than y: the smallest one that is not below the wanted one, else
      the largest. */
  predicate Closer(x: int, y: int, want: int) {
    if y < want then x > y else want <= x < y
  }

  /** Height decides before width, width before frame rate; frame rates that meet the
      request are equally good. */
  predicate Beats(c: Capability, d: Capability, req: Capability) {
    || Closer(c.height, d.height, req.height)
    || (c.height == d.height && Closer(c.width, d.width, req.width))
    || (c.height == d.height && c.width == d.width && d.maxFps < req.maxFps && d.maxFps < c.maxFps)
  }

  /** x is the smallest member of xs that is not below want or, if there is none, the largest
      member. */
  ghost predicate Fits(x: int, xs: set<int>, want: int) {
    && x in xs
    && if exists y :: y in xs && y >= want then x >= want && forall y :: y in xs && y >= want ==> x <= y
       else forall y :: y in xs ==> y <= x
  }

  function Heights(caps: seq<Capability>): set<int> {
    set c | c in caps :: c.height
  }

  function Widths(caps: seq<Capability>, height: int): set<int> {
    set c | c in caps && c.height == height :: c.width
  }

  function Rates(caps: seq<Capability>, width: int, height: int): set<int> {
    set c | c in caps && c.height == height && c.width == width :: c.maxFps
  }

  /** The capability is lexicographically best in the list. */
  ghost predicate Best(caps: seq<Capability>, req: Capability, c: Capability) {
    && Fits(c.height, Heights(caps), req.height)
    && Fits(c.width, Widths(caps, c.height), req.width)
    && var rates := Rates(caps, c.width, c.height);
       && c.maxFps in rates
       && if exists f :: f in rates && f >= req.maxFps then c.maxFps >= req.maxFps
          else forall f :: f in rates ==> f <= c.maxFps
  }

  lemma FitsIffUnbeaten(x: int, xs: set<int>, want: int)
    requires x in xs
    ensures Fits(x, xs, want) <==> forall y :: y in xs ==> !Closer(y, x, want)
  {
    if Fits(x, xs, want) {
      forall y | y in xs ensures !Closer(y, x, want) {}
    }
    if forall y :: y in xs ==> !Closer(y, x, want) {
      forall y | y in xs && y >= want ensures x >= want && x <= y {
        assert !Closer(y, x, want);
      }
      if x < want {
        forall y | y in xs ensures y <= x {
          assert !Closer(y, x, want);
        }
      }
    }
  }

  ghost predicate Unbeaten(caps: seq<Capability>, req: Capability, c: Capability) {
    forall d :: d in caps ==> !Beats(d, c, req)
  }

  lemma BestIsUnbeaten(caps: seq<Capability>, req: Capability, c: Capability)
    requires c in caps && Best(caps, req, c)
    ensures Unbeaten(caps, req, c)
  {
    FitsIffUnbeaten(c.height, Heights(caps), req.height);
    FitsIffUnbeaten(c.width, Widths(caps, c.height), req.width);
    forall d | d in caps ensures !Beats(d, c, req) {
      assert d.height in Heights(caps);
      if d.height == c.height {
        assert d.width in Widths(caps, c.height);
        if d.width == c.width {
          assert d.maxFps in Rates(caps, c.width, c.height);
        }
      }
    }
  }

  lemma UnbeatenIsBest(caps: seq<Capability>, req: Capability, c: Capability)
    requires c in caps && Unbeaten(caps, req, c)
    ensures Best(caps, req, c)
  {
    FitsIffUnbeaten(c.height, Heights(caps), req.height);
    FitsIffUnbeaten(c.width, Widths(caps, c.height), req.width);
    forall y | y in Heights(caps) ensures !Closer(y, c.height, req.height) {
      var d :| d in caps && d.height == y;
      assert !Beats(d, c, req);
    }
    forall y | y in Widths(caps, c.height) ensures !Closer(y, c.width, req.width) {
      var d :| d in caps && d.height == c.height && d.width == y;
      assert !Beats(d, c, req);
    }
    forall f | f in Rates(caps, c.width, c.height) ensures c.maxFps >= req.maxFps || f <= c.maxFps {
      var d :| d in caps && d.height == c.height && d.width == c.width && d.maxFps == f;
      assert !Beats(d, c, req);
    }
  }

  /** The lexicographic optimum is exactly what no capability of the list beats. */
  lemma BestIffUnbeaten(caps: seq<Capability>, req: Capability, c: Capability)
    requires c in caps
    ensures Best(caps, req, c) <==> Unbeaten(caps, req, c)
  {
    if Best(caps, req, c) {
      BestIsUnbeaten(caps, req, c);
    }
    if Unbeaten(caps, req, c) {
      UnbeatenIsBest(caps, req, c);
    }
  }

  // ---------- which of the best is returned ----------

  /** The first of the best capabilities among the first n. */
  ghost predicate Anchor(caps: seq<Capability>, n: nat, req: Capability, p: nat) {
    && p < n <= |caps|
    && (forall i :: 0 <= i < n ==> !Beats(caps[i], caps[p], req))
    && (forall i :: 0 <= i < p ==> Beats(caps[p], caps[i], req))
  }

  /** Also one of the best, not before the anchor and with no higher frame rate. */
  predicate Candidate(caps: seq<Capability>, req: Capability, p: nat, i: nat)
    requires p < |caps| && i < |caps|
  {
    p <= i && caps[i].maxFps <= caps[p].maxFps && !Beats(caps[p], caps[i], req) && !Beats(caps[i], caps[p], req)
  }

  predicate Exact(c: Capability, req: Capability) {
    c.height == req.height && c.width == req.width && c.maxFps >= req.maxFps
  }

  predicate Usable(c: Capability, req: Capability) {
    c.videoType == req.videoType || c.videoType in {I420, YUY2, YV12}
  }

  datatype Kind = Any | OfRequestedType | OfUsableType

  predicate Is(c: Capability, kind: Kind, req: Capability) {
    match kind
    case Any => true
    case OfRequestedType => c.videoType == req.videoType
    case OfUsableType => Usable(c, req)
  }

  /** No candidate of a kind between i and j, both excluded. */
  ghost predicate NoneBetween(caps: seq<Capability>, req: Capability, p: nat, i: int, j: nat, kind: Kind)
    requires p < |caps| && -1 <= i && j <= |caps|
  {
    forall k :: i < k < j && Candidate(caps, req, p, k) ==> !Is(caps[k], kind, req)
  }

  /** The returned index among the first n: the last candidate when the request is met
      exactly, whatever its format; else the first candidate of the requested format; else the
      last candidate in a usable format after the anchor; else the anchor. */
  ghost predicate Chosen(caps: seq<Capability>, n: nat, req: Capability, p: nat, r: nat)
    requires p < n <= |caps|
  {
    && p <= r < n && Candidate(caps, req, p, r)
    && if Exact(caps[p], req) then NoneBetween(caps, req, p, r, n, Any)
       else if req.videoType == Unknown then r == p
       else if caps[r].videoType == req.videoType then NoneBetween(caps, req, p, -1, r, OfRequestedType)
       else NoneBetween(caps, req, p, -1, n, OfRequestedType)
            && NoneBetween(caps, req, p, r, n, OfUsableType)
            && (r == p || Usable(caps[r], req))
  }

  /** A capability that beats the anchor becomes the anchor. */
  lemma NewAnchor(caps: seq<Capability>, n: nat, req: Capability, p: nat)
    requires n < |caps| && Anchor(caps, n, req, p) && Beats(caps[n], caps[p], req)
    ensures Anchor(caps, n + 1, req, n) && Chosen(caps, n + 1, req, n, n)
  {
  }

  /** A worse capability, or one that is as good with a higher frame rate, changes nothing. */
  lemma Skipped(caps: seq<Capability>, n: nat, req: Capability, p: nat, r: nat)
    requires n < |caps| && Anchor(caps, n, req, p) && Chosen(caps, n, req, p, r)
    requires !Beats(caps[n], caps[p], req) && !Candidate(caps, req, p, n)
    ensures Anchor(caps, n + 1, req, p) && Chosen(caps, n + 1, req, p, r)
  {
  }

  /** The index after a further candidate. */
  function Rechosen(caps: seq<Capability>, n: nat, req: Capability, p: nat, r: nat): nat
    requires n < |caps| && p < |caps| && r < |caps|
  {
    if Exact(caps[p], req) then n
    else if req.videoType != Unknown && caps[r].videoType != req.videoType && Usable(caps[n], req) then n
    else r
  }

  lemma Tied(caps: seq<Capability>, n: nat, req: Capability, p: nat, r: nat)
    requires n < |caps| && Anchor(caps, n, req, p) && Chosen(caps, n, req, p, r) && Candidate(caps, req, p, n)
    ensures Anchor(caps, n + 1, req, p) && Chosen(caps, n + 1, req, p, Rechosen(caps, n, req, p, r))
  {
  }

  /** The rules leave no freedom: list and request determine the returned index. */
  lemma ChosenIsUnique(caps: seq<Capability>, n: nat, req: Capability, p: nat, r: nat, p': nat, r': nat)
    requires Anchor(caps, n, req, p) && Chosen(caps, n, req, p, r)
    requires Anchor(caps, n, req, p') && Chosen(caps, n, req, p', r')
    ensures p == p' && r == r'
  {
    assert p == p';
    assert Candidate(caps, req, p, r) && Candidate(caps, req, p, r');
  }

  /** The anchor is the first capability of the list that is a lexicographic optimum. */
  lemma AnchorIsFirstBest(caps: seq<Capability>, req: Capability, p: nat)
    requires Anchor(caps, |caps|, req, p)
    ensures Best(caps, req, caps[p]) && forall i :: 0 <= i < p ==> !Best(caps, req, caps[i])
  {
    UnbeatenIsBest(caps, req, caps[p]);
    forall i | 0 <= i < p ensures !Best(caps, req, caps[i]) {
      BestIffUnbeaten(caps, req, caps[i]);
    }
  }

  /** A candidate has the size of the anchor, is not before it, and its frame rate is that of the
      anchor or a lower one that meets the request. */
  lemma CandidateIs(caps: seq<Capability>, req: Capability, p: nat, i: nat)
    requires p < |caps| && i < |caps|
    ensures var c, d := caps[p], caps[i];
            Candidate(caps, req, p, i) <==>
              && p <= i && d.height == c.height && d.width == c.width
              && (d.maxFps == c.maxFps || req.maxFps <= d.maxFps < c.maxFps)
  {
  }

  predicate Meets(c: Capability, height: int, width: int, rate: int) {
    c.height == height && c.width == width && c.maxFps >= rate
  }

  /** Which candidate is returned. When the anchor meets the request, the last one. Otherwise, and if
      a format is asked for, the first one in that format; without any, the last one in I420, YUY2
      or YV12, or the anchor. */
  lemma ReturnedIndex(caps: seq<Capability>, req: Capability, p: nat, r: nat)
    requires Anchor(caps, |caps|, req, p) && Chosen(caps, |caps|, req, p, r)
    ensures r < |caps| && Candidate(caps, req, p, r)
    ensures Meets(caps[p], req.height, req.width, req.maxFps) ==>
              forall k :: r < k < |caps| ==> !Candidate(caps, req, p, k)
    ensures !Meets(caps[p], req.height, req.width, req.maxFps) ==>
              if req.videoType == Unknown then r == p
              else if exists k :: 0 <= k < |caps| && Candidate(caps, req, p, k) && caps[k].videoType == req.videoType
              then caps[r].videoType == req.videoType
                   && forall k :: 0 <= k < r && Candidate(caps, req, p, k) ==> caps[k].videoType != req.videoType
              else (r == p || caps[r].videoType in {I420, YUY2, YV12})
                   && forall k :: r < k < |caps| && Candidate(caps, req, p, k) ==>
                                    caps[k].videoType !in {I420, YUY2, YV12}
  {
    if Meets(caps[p], req.height, req.width, req.maxFps) {
      forall k | r < k < |caps| ensures !Candidate(caps, req, p, k) {
        assert Is(caps[k], Any, req);
      }
    } else if req.videoType != Unknown {
      forall k | 0 <= k < |caps| && Candidate(caps, req, p, k)
        ensures k < r || caps[r].videoType != req.videoType ==> !Is(caps[k], OfRequestedType, req)
        ensures k > r && caps[r].videoType != req.videoType ==> !Is(caps[k], OfUsableType, req)
      {
      }
    }
  }

  /** When a candidate has the requested format, the returned one has it unless the request is
      met exactly; then the last candidate is returned, whatever its format. */
  lemma TypeHonoured(caps: seq<Capability>, req: Capability, p: nat, r: nat, k: nat, last: nat)
    requires Anchor(caps, |caps|, req, p) && Chosen(caps, |caps|, req, p, r) && req.videoType != Unknown
    requires k < |caps| && Candidate(caps, req, p, k) && caps[k].videoType == req.videoType
    requires last < |caps| && Candidate(caps, req, p, last) && NoneBetween(caps, req, p, last, |caps|, Any)
    ensures caps[r].videoType == req.videoType <==>
            !Meets(caps[p], req.height, req.width, req.maxFps) || caps[last].videoType == req.videoType
  {
    if Exact(caps[p], req) {
      assert !(last < r) && !(r < last) by {
        assert last < r ==> !Is(caps[r], Any, req);
        assert r < last ==> !Is(caps[last], Any, req);
      }
    } else {
      assert Is(caps[k], OfRequestedType, req);
    }
  }

  /** Two capabilities that differ in their format only, of which the first is what is asked for:
      the second is returned, and nothing else can be. */
  lemma FormatIsLost(caps: seq<Capability>, req: Capability)
    requires caps == [Capability(640, 480, 30, I420), Capability(640, 480, 30, YUY2)]
    requires req == Capability(640, 480, 30, I420)
    ensures Anchor(caps, 2, req, 0) && Chosen(caps, 2, req, 0, 1)
    ensures forall p: nat, r: nat :: Anchor(caps, 2, req, p) && Chosen(caps, 2, req, p, r) ==> r == 1
    ensures caps[0] == req && caps[1].videoType != req.videoType
  {
    forall p: nat, r: nat | Anchor(caps, 2, req, p) && Chosen(caps, 2, req, p, r) ensures r == 1 {
      ChosenIsUnique(caps, 2, req, p, r, 0, 1);
    }
  }

  function Abs(x: int): int { if x < 0 then -x else x }

  /** The heights of a device are positive. */
  predicate Positive(caps: seq<Capability>) {
    forall i :: 0 <= i < |caps| ==> caps[i].height > 0
  }

  /** The search of the source. */
  method GetBestMatchedCapability(caps: seq<Capability>, req: Capability) returns (index: int)
    ensures -1 <= index < |caps|
    ensures Positive(caps) ==> (index == -1 <==> caps == [] || req.height <= 0)
    ensures Positive(caps) && index >= 0 ==> Best(caps, req, caps[index])
    ensures Positive(caps) && index >= 0 ==>
              exists p: nat :: Anchor(caps, |caps|, req, p) && Chosen(caps, |caps|, req, p, index)
  {
    index := -1;
    var bestWidth, bestHeight, bestFrameRate, bestVideoType := 0, 0, 0, Unknown;
    ghost var p: nat := 0;
    ghost var positive := Positive(caps);
    for tmp := 0 to |caps|
      invariant -1 <= index < tmp || index == -1
      invariant positive ==> (index == -1 <==> tmp == 0 || req.height <= 0)
      invariant positive && index == -1 ==> bestHeight == 0
      invariant positive && index >= 0 ==> Anchor(caps, tmp, req, p) && Chosen(caps, tmp, req, p, index)
      invariant positive && index >= 0 ==> caps[p].width == bestWidth && caps[p].height == bestHeight
      invariant positive && index >= 0 ==> caps[p].maxFps == bestFrameRate
      invariant positive && index >= 0 && !Exact(caps[p], req) ==> caps[index].videoType == bestVideoType
    {
      var capability := caps[tmp];
      var diffWidth := capability.width - req.width;
      var diffHeight := capability.height - req.height;
      var diffFrameRate := capability.maxFps - req.maxFps;
      var bestDiffWidth := bestWidth - req.width;
      var bestDiffHeight := bestHeight - req.height;
      var bestDiffFrameRate := bestFrameRate - req.maxFps;
      ghost var r := index;
      ghost var beats := positive && index >= 0 && Beats(capability, caps[p], req);
      ghost var tied := positive && index >= 0 && Candidate(caps, req, p, tmp);
      if (diffHeight >= 0 && diffHeight <= Abs(bestDiffHeight))
         || (bestDiffHeight < 0 && diffHeight >= bestDiffHeight)
      {
        if diffHeight == bestDiffHeight {
          if (diffWidth >= 0 && diffWidth <= Abs(bestDiffWidth)) || (bestDiffWidth < 0 && diffWidth >= bestDiffWidth) {
            if diffWidth == bestDiffWidth && diffHeight == bestDiffHeight {
              if (diffFrameRate >= 0 && diffFrameRate <= bestDiffFrameRate)
                 || (bestDiffFrameRate < 0 && diffFrameRate >= bestDiffFrameRate) {
                if bestDiffFrameRate == diffFrameRate || bestDiffFrameRate >= 0 {
                  if bestVideoType != req.videoType && req.videoType != Unknown && Usable(capability, req) {
                    bestVideoType, index := capability.videoType, tmp;
                  }
                  if Exact(capability, req) {
                    index := tmp;
                  }
                } else {
                  bestWidth, bestHeight, bestFrameRate := capability.width, capability.height, capability.maxFps;
                  bestVideoType, index := capability.videoType, tmp;
                }
              }
            } else {
              bestWidth, bestHeight, bestFrameRate := capability.width, capability.height, capability.maxFps;
              bestVideoType, index := capability.videoType, tmp;
            }
          }
        } else {
          bestWidth, bestHeight, bestFrameRate := capability.width, capability.height, capability.maxFps;
          bestVideoType, index := capability.videoType, tmp;
        }
      }
      if positive {
        if r == -1 {
          p := tmp;
        } else if beats {
          NewAnchor(caps, tmp, req, p);
          p := tmp;
        } else if tied {
          Tied(caps, tmp, req, p, r);
          assert index == Rechosen(caps, tmp, req, p, r);
        } else {
          Skipped(caps, tmp, req, p, r);
        }
      }
    }
    if positive && index >= 0 {
      UnbeatenIsBest(caps, req, caps[index]);
    }
  }
}
