/** The proposal layer: from predicted boxes and scores to regions of interest. */
module Proposal {
  import opened BoxMath
  import opened NumpyOps
  import opened Sequences

  predicate BigEnough(b: Box, minSize: real) {
    Width(b) >= minSize && Height(b) >= minSize
  }

  /** The square of n pixels a side whose first pixel is (x, y) lies in the box. */
  ghost predicate HoldsSquare(b: Box, x: int, y: int, n: nat) {
    Grid(x, y, x + n - 1, y + n - 1) <= Pixels(b)
  }

  /** A box is big enough for a whole number of pixels exactly if a square of that many pixels a side fits into it. */
  lemma BigEnoughFitsSquare(b: Box, n: nat)
    requires WellFormed(b) && HasIntegerCorners(b) && n >= 1
    ensures BigEnough(b, n as real) <==> exists x, y :: HoldsSquare(b, x, y, n)
  {
    if BigEnough(b, n as real) {
      assert HoldsSquare(b, b.x1.Floor, b.y1.Floor, n);
    }
    if x, y :| HoldsSquare(b, x, y, n) {
      var square := Grid(x, y, x + n - 1, y + n - 1);
      assert (x, y) in square && (x + n - 1, y + n - 1) in square;
      assert Contains(b, x as real, y as real) && Contains(b, (x + n - 1) as real, (y + n - 1) as real);
    }
  }

  /** Rows are boxes. */
  predicate Boxes(m: Matrix) {
    forall i :: 0 <= i < |m| ==> |m[i]| == 4
  }

  method FilterBoxes(boxes: Matrix, minSize: real) returns (keep: seq<nat>)
    requires Boxes(boxes)
    ensures IsWhere(keep, |boxes|, (i: nat) => i < |boxes| && BigEnough(BoxAt(boxes[i], 0), minSize))
  {
    ghost var p := (i: nat) => i < |boxes| && BigEnough(BoxAt(boxes[i], 0), minSize);
    keep := [];
    for i := 0 to |boxes|
      invariant IsWhere(keep, i, p)
    {
      ExtendWhere(keep, i, p);
      if BigEnough(BoxAt(boxes[i], 0), minSize) {
        keep := keep + [i];
      }
    }
  }

  /** Erases everything after the first n elements; 0 stands for no limit. */
  method Truncate(order: seq<nat>, n: nat) returns (r: seq<nat>)
    ensures r <= order && (n > 0 ==> |r| <= n) && (n == 0 || |order| <= n ==> r == order) &&
            (0 < n < |order| ==> |r| == n)
  {
    r := if n > 0 && n < |order| then order[..n] else order;
  }

  ghost predicate Sorts(argsort: seq<real> -> seq<nat>) {
    forall s :: IsArgsort(argsort(s), s)
  }

  /** The contract of the GPU routine: positions into the boxes it was given, strictly increasing. */
  ghost predicate Suppresses(gpuNms: (Matrix, seq<real>) -> seq<nat>) {
    forall boxes, scores {:trigger gpuNms(boxes, scores)} ::
      Increasing(gpuNms(boxes, scores)) && forall i :: 0 <= i < |gpuNms(boxes, scores)| ==>
        gpuNms(boxes, scores)[i] < |boxes|
  }

  predicate NonIncreasing(s: seq<real>) {
    forall i, j :: 0 <= i < j < |s| ==> s[i] >= s[j]
  }

  lemma WhereSelects(r: seq<nat>, n: nat, p: nat -> bool)
    requires IsWhere(r, n, p)
    ensures Selection(r, n) && forall i :: 0 <= i < |r| ==> p(r[i])
  {
    forall i | 0 <= i < |r| ensures r[i] < n && p(r[i]) {
      assert r[i] in r;
    }
  }

  /** Steps 3 to 5: the boxes that are big enough, best scores first, at most preNmsTopN of them. */
  method Candidates(boxes: Matrix, scores: seq<real>, minSize: real, preNmsTopN: nat, argsort: seq<real> -> seq<nat>)
    returns (src: seq<nat>)
    requires Boxes(boxes) && |scores| == |boxes| && Sorts(argsort)
    ensures Selection(src, |boxes|) && NonIncreasing(Pick(scores, src)) && (preNmsTopN > 0 ==> |src| <= preNmsTopN)
    ensures forall i :: 0 <= i < |src| ==> BigEnough(BoxAt(boxes[src[i]], 0), minSize)
    // nothing left out scores better than anything kept
    ensures forall k: nat :: k < |boxes| && k !in src && BigEnough(BoxAt(boxes[k], 0), minSize) ==>
              |src| == preNmsTopN > 0 && forall i :: 0 <= i < |src| ==> scores[k] <= scores[src[i]]
  {
    var keep := FilterBoxes(boxes, minSize);
    WhereSelects(keep, |boxes|, (i: nat) => i < |boxes| && BigEnough(BoxAt(boxes[i], 0), minSize));
    var keptScores := VecKeepByIndex(scores, keep);
    var sorted := argsort(keptScores);
    var order := Truncate(sorted, preNmsTopN);
    PickTwice(scores, keep, order);
    src := VecKeepByIndex(keep, order);
    forall k: nat | k < |boxes| && k !in src && BigEnough(BoxAt(boxes[k], 0), minSize)
      ensures |src| == preNmsTopN > 0 && forall i :: 0 <= i < |src| ==> scores[k] <= scores[src[i]]
    {
      assert k in keep;
      LeftOutIsWorse(scores, keep, sorted, order, k);
    }
  }

  /** What a truncation of the sorted list leaves out is past its end, so it scores no better. */
  lemma LeftOutIsWorse(scores: seq<real>, keep: seq<nat>, sorted: seq<nat>, order: seq<nat>, k: nat)
    requires Selection(keep, |scores|) && IsArgsort(sorted, Pick(scores, keep)) && order <= sorted
    requires k in keep && k !in Pick(keep, order)
    ensures |order| < |sorted| && forall i :: 0 <= i < |order| ==> scores[k] <= scores[keep[order[i]]]
  {
    var p: nat :| p < |keep| && keep[p] == k;
    PermutationHits(sorted, |keep|, p);
    var q: nat :| q < |sorted| && sorted[q] == p;
    PickedMember(keep, sorted, order, q);
    assert Pick(scores, keep)[sorted[q]] == scores[k];
    forall i | 0 <= i < |order| ensures scores[k] <= scores[keep[order[i]]] {
      assert Pick(scores, keep)[sorted[i]] == scores[keep[order[i]]];
    }
  }

  lemma PickedMember(keep: seq<nat>, sorted: seq<nat>, order: seq<nat>, q: nat)
    requires q < |sorted| && order <= sorted && forall i :: 0 <= i < |sorted| ==> sorted[i] < |keep|
    ensures q < |order| ==> keep[sorted[q]] in Pick(keep, order)
  {
    if q < |order| {
      assert Pick(keep, order)[q] == keep[sorted[q]];
    }
  }

  /** Steps 6 and 7: non-maximum suppression in score order, and the final truncation. */
  method Suppress(boxes: Matrix, scores: seq<real>, postNmsTopN: nat, argsort: seq<real> -> seq<nat>,
        gpuNms: (Matrix, seq<real>) -> seq<nat>)
    returns (src: seq<nat>, order: seq<nat>, kept: seq<nat>)
    requires Boxes(boxes) && |scores| == |boxes| && Sorts(argsort) && Suppresses(gpuNms)
    ensures Selection(src, |boxes|) && NonIncreasing(Pick(scores, src))
    ensures IsArgsort(order, scores) && kept == gpuNms(Pick(boxes, order), Pick(scores, order))
    ensures postNmsTopN == 0 || |kept| <= postNmsTopN ==> |src| == |kept|
    ensures 0 < postNmsTopN < |kept| ==> |src| == postNmsTopN
    ensures Increasing(kept) && forall i :: 0 <= i < |kept| ==> kept[i] < |order|
    ensures forall i :: 0 <= i < |src| ==> src[i] == order[kept[i]]
  {
    order := argsort(scores);
    kept := gpuNms(Pick(boxes, order), Pick(scores, order));
    var keep := Nms(scores, order, kept);
    src := Truncate(keep, postNmsTopN);
  }

  datatype Config = Config(minSize: real, preNmsTopN: nat, postNmsTopN: nat)

  /** Position k was cut before the suppression, for a limit that is used up by scores at least as good. */
  predicate CutBefore(scores: seq<real>, sorted: seq<nat>, preNmsTopN: nat, k: nat)
    requires k < |scores| && forall i :: 0 <= i < |sorted| ==> sorted[i] < |scores|
  {
    k !in sorted && |sorted| == preNmsTopN > 0 && forall i :: 0 <= i < |sorted| ==> scores[k] <= scores[sorted[i]]
  }

  /** Position k went through the suppression, which dropped it, or it was past the final limit. */
  ghost predicate DroppedAfter(sorted: seq<nat>, kept: seq<nat>, postNmsTopN: nat, k: nat) {
    exists p: nat :: p < |sorted| && sorted[p] == k &&
      (p !in kept || (0 < postNmsTopN < |kept| && p in kept[postNmsTopN..]))
  }

  /** Sorting the candidates again keeps what is known about them. */
  lemma SortedCandidates(candidates: seq<nat>, order: seq<nat>, scores: seq<real>)
    requires Selection(candidates, |scores|) && IsArgsort(order, Pick(scores, candidates))
    ensures var sorted := Pick(candidates, order);
            && Selection(sorted, |scores|) && |sorted| == |candidates|
            && NonIncreasing(Pick(scores, sorted)) && forall k :: k in sorted <==> k in candidates
  {
    var sorted := Pick(candidates, order);
    PickTwice(scores, candidates, order);
    forall k | k in candidates ensures k in sorted {
      var c: nat :| c < |candidates| && candidates[c] == k;
      PermutationHits(order, |candidates|, c);
      var p: nat :| p < |order| && order[p] == c;
      assert sorted[p] == k;
    }
  }

  /** What is not among the rows was dropped by the suppression or by the final limit. */
  lemma NotAmongRows(sorted: seq<nat>, kept: seq<nat>, src: seq<nat>, postNmsTopN: nat, k: nat)
    requires forall i :: 0 <= i < |kept| ==> kept[i] < |sorted|
    requires postNmsTopN == 0 || |kept| <= postNmsTopN ==> |src| == |kept|
    requires 0 < postNmsTopN < |kept| ==> |src| == postNmsTopN
    requires forall i :: 0 <= i < |src| ==> src[i] == sorted[kept[i]]
    requires k in sorted && k !in src
    ensures DroppedAfter(sorted, kept, postNmsTopN, k)
  {
    var p: nat :| p < |sorted| && sorted[p] == k;
    if p in kept {
      var q: nat :| q < |kept| && kept[q] == p;
      assert |src| <= q;
      assert kept[|src|..][q - |src|] == p;
    }
  }

  method ClipProposals(predicted: Matrix, imShape: Row) returns (clipped: Matrix)
    requires Boxes(predicted) && |imShape| >= 2 && imShape[0] >= 1.0 && imShape[1] >= 1.0
    ensures Boxes(clipped) && |clipped| == |predicted|
    ensures forall i :: 0 <= i < |clipped| ==>
              BoxAt(clipped[i], 0) == Clipped(BoxAt(predicted[i], 0), imShape[1], imShape[0])
  {
    clipped := ClipBoxes(predicted, imShape);
    forall i | 0 <= i < |clipped|
      ensures BoxAt(clipped[i], 0) == Clipped(BoxAt(predicted[i], 0), imShape[1], imShape[0])
    {
      assert BoxAt(clipped[i], 4 * 0) == Clipped(BoxAt(predicted[i], 4 * 0), imShape[1], imShape[0]);
    }
  }

  /**
   * Steps 3 to 7 on the clipped boxes. sorted lists the candidates in the order in which they go through the
   * suppression, kept the positions there that the suppression keeps, and src what is left after the final limit.
   */
  method SelectProposals(cfg: Config, clipped: Matrix, scores0: seq<real>, argsort: seq<real> -> seq<nat>,
        gpuNms: (Matrix, seq<real>) -> seq<nat>)
    returns (proposals: Matrix, scores: seq<real>, src: seq<nat>, sorted: seq<nat>, kept: seq<nat>)
    requires Boxes(clipped) && |scores0| == |clipped| && Sorts(argsort) && Suppresses(gpuNms)
    ensures Selection(src, |clipped|) && NonIncreasing(scores)
    ensures proposals == Pick(clipped, src) && scores == Pick(scores0, src)
    // the candidates
    ensures Selection(sorted, |clipped|) && NonIncreasing(Pick(scores0, sorted))
    ensures forall i :: 0 <= i < |sorted| ==> BigEnough(BoxAt(clipped[sorted[i]], 0), cfg.minSize)
    ensures forall k: nat :: k < |clipped| && BigEnough(BoxAt(clipped[k], 0), cfg.minSize) && k !in sorted ==>
              CutBefore(scores0, sorted, cfg.preNmsTopN, k)
    ensures cfg.preNmsTopN > 0 ==> |sorted| <= cfg.preNmsTopN
    // what the suppression makes of them, and the final limit
    ensures kept == gpuNms(Pick(clipped, sorted), Pick(scores0, sorted))
    ensures cfg.postNmsTopN == 0 || |kept| <= cfg.postNmsTopN ==> |src| == |kept|
    ensures 0 < cfg.postNmsTopN < |kept| ==> |src| == cfg.postNmsTopN
    ensures forall i :: 0 <= i < |kept| ==> kept[i] < |sorted|
    ensures forall i :: 0 <= i < |src| ==> src[i] == sorted[kept[i]]
  {
    var candidates := Candidates(clipped, scores0, cfg.minSize, cfg.preNmsTopN, argsort);
    proposals := VecKeepByIndex(clipped, candidates);
    scores := VecKeepByIndex(scores0, candidates);
    var keep, order;
    keep, order, kept := Suppress(proposals, scores, cfg.postNmsTopN, argsort, gpuNms);
    PickTwice(clipped, candidates, keep);
    PickTwice(scores0, candidates, keep);
    PickTwice(clipped, candidates, order);
    PickTwice(scores0, candidates, order);
    SortedCandidates(candidates, order, scores0);
    sorted := Pick(candidates, order);
    src := Pick(candidates, keep);
    proposals := VecKeepByIndex(proposals, keep);
    scores := VecKeepByIndex(scores, keep);
    forall k: nat | k < |clipped| && BigEnough(BoxAt(clipped[k], 0), cfg.minSize) && k !in sorted
      ensures CutBefore(scores0, sorted, cfg.preNmsTopN, k)
    {
      forall i | 0 <= i < |sorted| ensures scores0[k] <= scores0[sorted[i]] {
        assert sorted[i] == candidates[order[i]];
      }
    }
  }

  /** The rows put out, and the number of the original anchor that each comes from. */
  method Propose(cfg: Config, predicted: Matrix, scores0: seq<real>, imShape: Row, argsort: seq<real> -> seq<nat>,
        gpuNms: (Matrix, seq<real>) -> seq<nat>)
    returns (rois: Matrix, scores: seq<real>, src: seq<nat>, clipped: Matrix, sorted: seq<nat>, kept: seq<nat>)
    requires Boxes(predicted) && |scores0| == |predicted| && |imShape| >= 2 && imShape[0] >= 1.0 && imShape[1] >= 1.0
    requires Sorts(argsort) && Suppresses(gpuNms)
    ensures |rois| == |scores| == |src| && Selection(src, |predicted|) && NonIncreasing(scores)
    ensures forall i :: 0 <= i < |rois| ==> var b := Clipped(BoxAt(predicted[src[i]], 0), imShape[1], imShape[0]);
              && rois[i] == [0.0, b.x1, b.y1, b.x2, b.y2] && scores[i] == scores0[src[i]]
              && InImage(b, imShape[1], imShape[0]) && BigEnough(b, cfg.minSize)
    // the candidates: clipped boxes that are big enough, in score order
    ensures Boxes(clipped) && |clipped| == |predicted|
    ensures forall i :: 0 <= i < |clipped| ==>
              BoxAt(clipped[i], 0) == Clipped(BoxAt(predicted[i], 0), imShape[1], imShape[0])
    ensures Selection(sorted, |predicted|) && NonIncreasing(Pick(scores0, sorted))
    ensures forall i :: 0 <= i < |sorted| ==> BigEnough(BoxAt(clipped[sorted[i]], 0), cfg.minSize)
    ensures cfg.preNmsTopN > 0 ==> |sorted| <= cfg.preNmsTopN
    // the rows are those that the suppression keeps of them, in order, up to the final limit
    ensures kept == gpuNms(Pick(clipped, sorted), Pick(scores0, sorted))
    ensures cfg.postNmsTopN == 0 || |kept| <= cfg.postNmsTopN ==> |rois| == |kept|
    ensures 0 < cfg.postNmsTopN < |kept| ==> |rois| == cfg.postNmsTopN
    ensures forall i :: 0 <= i < |rois| ==> kept[i] < |sorted| && src[i] == sorted[kept[i]]
    // why a big enough anchor is left out
    ensures forall k: nat :: k < |predicted| && BigEnough(BoxAt(clipped[k], 0), cfg.minSize) && k !in src ==>
              CutBefore(scores0, sorted, cfg.preNmsTopN, k) || DroppedAfter(sorted, kept, cfg.postNmsTopN, k)
  {
    clipped := ClipProposals(predicted, imShape);
    var proposals;
    proposals, scores, src, sorted, kept := SelectProposals(cfg, clipped, scores0, argsort, gpuNms);
    rois := Vec2dPad(1, proposals);
    forall k: nat | k < |predicted| && BigEnough(BoxAt(clipped[k], 0), cfg.minSize) && k !in src
      ensures CutBefore(scores0, sorted, cfg.preNmsTopN, k) || DroppedAfter(sorted, kept, cfg.postNmsTopN, k)
    {
      if k in sorted {
        NotAmongRows(sorted, kept, src, cfg.postNmsTopN, k);
      }
    }
  }
}
