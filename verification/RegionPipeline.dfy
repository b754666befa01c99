/** The proposal layer feeding the proposal target layer. */
module RegionPipeline {
  import opened BoxMath
  import opened NumpyOps
  import opened Sequences
  import P = Proposal
  import T = ProposalTarget

  /** The size filter lets only well-formed boxes through exactly if the minimum is at least one pixel. */
  lemma FilterKeepsWellFormed(minSize: real)
    ensures (forall b: Box :: P.BigEnough(b, minSize) ==> WellFormed(b)) <==> minSize >= 1.0
  {
    if minSize < 1.0 {
      var b := Box(0.0, 0.0, minSize - 1.0, minSize - 1.0);
      assert P.BigEnough(b, minSize) && !WellFormed(b);
    }
  }

  /** Where a candidate of the proposal target layer comes from: a proposal, or past those a ground truth. */
  function Region(predicted: Matrix, src: seq<nat>, gtBoxes: Matrix, imShape: Row, k: nat): Box
    requires P.Boxes(predicted) && Selection(src, |predicted|) && BoxRows(gtBoxes, 0) && |imShape| >= 2
    requires imShape[0] >= 1.0 && imShape[1] >= 1.0 && k < |src| + |gtBoxes|
  {
    if k < |src| then Clipped(BoxAt(predicted[src[k]], 0), imShape[1], imShape[0]) else BoxAt(gtBoxes[k - |src|], 0)
  }

  /** Regions whose suppression and final limit are those of the proposal layer. */
  ghost predicate Proposed(proposal: P.Config, scores0: seq<real>, clipped: Matrix, src: seq<nat>, sorted: seq<nat>,
        kept: seq<nat>, gpuNms: (Matrix, seq<real>) -> seq<nat>)
    requires |scores0| == |clipped|
  {
    && Selection(sorted, |clipped|) && kept == gpuNms(Pick(clipped, sorted), Pick(scores0, sorted))
    && (proposal.postNmsTopN == 0 || |kept| <= proposal.postNmsTopN ==> |src| == |kept|)
    && (0 < proposal.postNmsTopN < |kept| ==> |src| == proposal.postNmsTopN)
    && forall i :: 0 <= i < |src| ==> kept[i] < |sorted| && src[i] == sorted[kept[i]]
  }

  /** The output of the proposal layer is what the proposal target layer asks for. */
  method ProposedRois(proposal: P.Config, predicted: Matrix, scores0: seq<real>, imShape: Row,
        argsort: seq<real> -> seq<nat>, gpuNms: (Matrix, seq<real>) -> seq<nat>)
    returns (rois: Matrix, clipped: Matrix, src: seq<nat>, sorted: seq<nat>, kept: seq<nat>)
    requires P.Boxes(predicted) && |scores0| == |predicted| && |imShape| >= 2 && imShape[0] >= 1.0 && imShape[1] >= 1.0
    requires P.Sorts(argsort) && P.Suppresses(gpuNms) && proposal.minSize >= 1.0
    ensures |clipped| == |predicted| && Proposed(proposal, scores0, clipped, src, sorted, kept, gpuNms)
    ensures Selection(src, |predicted|) && |rois| == |src| && T.Rois(rois)
    ensures forall i :: 0 <= i < |rois| ==>
              BoxAt(rois[i], 1) == Clipped(BoxAt(predicted[src[i]], 0), imShape[1], imShape[0])
  {
    var scores;
    rois, scores, src, clipped, sorted, kept := P.Propose(proposal, predicted, scores0, imShape, argsort, gpuNms);
    FilterKeepsWellFormed(proposal.minSize);
    forall i | 0 <= i < |rois|
      ensures BoxAt(rois[i], 1) == Clipped(BoxAt(predicted[src[i]], 0), imShape[1], imShape[0])
      ensures |rois[i]| == 5 && WellFormed(BoxAt(rois[i], 1))
    {
      assert P.BigEnough(BoxAt(rois[i], 1), proposal.minSize);
    }
  }

  /** The proposal target layer, row by row: origin is its candidate, and target the ground truth it overlaps best. */
  method SampledRows(sampling: T.Config, log: real -> real, rois: Matrix, gtBoxes: Matrix, shuffleFg: nat -> seq<nat>,
        shuffleBg: nat -> seq<nat>)
    returns (s: T.Sample, outside: Matrix, all: Matrix, origin: seq<nat>, target: seq<nat>, fgCount: nat)
    requires T.ValidConfig(sampling) && T.PositiveWeights(sampling) && Shuffles(shuffleFg) && Shuffles(shuffleBg)
    requires T.Rois(rois) && T.GtBoxes(gtBoxes, sampling.numClasses) && gtBoxes != []
    ensures |all| == |rois| + |gtBoxes| && rois <= all && T.Rois(all) && Selection(origin, |all|)
    ensures forall j :: 0 <= j < |gtBoxes| ==> BoxAt(all[|rois| + j], 1) == BoxAt(gtBoxes[j], 0)
    ensures |s.labels| == |s.rois| == |s.targets| == |s.inside| == |outside| == |origin| == |target|
    ensures fgCount <= |origin| <= sampling.batch && (0 < sampling.fgQuota && sampling.fgThresh <= 1.0 ==> fgCount > 0)
    ensures T.Rois(s.rois) && forall i: nat :: i < |origin| ==>
              && s.rois[i] == all[origin[i]] && IsBestGt(s.rois, gtBoxes, i, target[i])
              && s.labels[i] == (if i < fgCount then gtBoxes[target[i]][4].Floor else 0)
              && T.RowMeaning(sampling, log, gtBoxes, s, outside, i, target[i])
  {
    var maxOverlaps, gtAssignment;
    s, outside, all, maxOverlaps, gtAssignment, origin, fgCount :=
      T.Feedforward(sampling, log, rois, gtBoxes, shuffleFg, shuffleBg);
    target := VecKeepByIndex(gtAssignment, origin);
    forall i: nat | i < |origin| ensures IsBestGt(s.rois, gtBoxes, i, target[i]) {
      BestGtOfRow(all, s.rois, gtBoxes, origin[i], i, target[i], maxOverlaps[origin[i]]);
    }
  }

  /** From predicted boxes to labelled regions; origin and target are the candidate and ground truth of each row. */
  method ProposeAndSample(proposal: P.Config, sampling: T.Config, log: real -> real, predicted: Matrix,
        scores0: seq<real>, imShape: Row, gtBoxes: Matrix, argsort: seq<real> -> seq<nat>,
        gpuNms: (Matrix, seq<real>) -> seq<nat>, shuffleFg: nat -> seq<nat>, shuffleBg: nat -> seq<nat>)
    returns (s: T.Sample, outside: Matrix, clipped: Matrix, src: seq<nat>, sorted: seq<nat>, kept: seq<nat>,
            origin: seq<nat>, target: seq<nat>, fgCount: nat)
    requires P.Boxes(predicted) && |scores0| == |predicted| && |imShape| >= 2 && imShape[0] >= 1.0 && imShape[1] >= 1.0
    requires P.Sorts(argsort) && P.Suppresses(gpuNms) && proposal.minSize >= 1.0
    requires T.ValidConfig(sampling) && T.PositiveWeights(sampling) && Shuffles(shuffleFg) && Shuffles(shuffleBg)
    requires T.GtBoxes(gtBoxes, sampling.numClasses) && gtBoxes != []
    ensures |clipped| == |predicted| && Proposed(proposal, scores0, clipped, src, sorted, kept, gpuNms)
    ensures Selection(src, |predicted|) && Selection(origin, |src| + |gtBoxes|)
    ensures |s.labels| == |s.rois| == |s.targets| == |s.inside| == |outside| == |origin| == |target|
    ensures fgCount <= |origin| <= sampling.batch && (0 < sampling.fgQuota && sampling.fgThresh <= 1.0 ==> fgCount > 0)
    ensures T.Rois(s.rois) && forall i: nat :: i < |origin| ==>
              && BoxAt(s.rois[i], 1) == Region(predicted, src, gtBoxes, imShape, origin[i])
              && IsBestGt(s.rois, gtBoxes, i, target[i])
              && s.labels[i] == (if i < fgCount then gtBoxes[target[i]][4].Floor else 0)
              && T.RowMeaning(sampling, log, gtBoxes, s, outside, i, target[i])
  {
    var rois, all;
    rois, clipped, src, sorted, kept := ProposedRois(proposal, predicted, scores0, imShape, argsort, gpuNms);
    s, outside, all, origin, target, fgCount := SampledRows(sampling, log, rois, gtBoxes, shuffleFg, shuffleBg);
    forall i: nat | i < |origin|
      ensures BoxAt(s.rois[i], 1) == Region(predicted, src, gtBoxes, imShape, origin[i])
    {
      CandidateRegion(predicted, src, gtBoxes, imShape, rois, all, origin[i]);
    }
  }

  lemma CandidateRegion(predicted: Matrix, src: seq<nat>, gtBoxes: Matrix, imShape: Row, rois: Matrix, all: Matrix,
        k: nat)
    requires P.Boxes(predicted) && Selection(src, |predicted|) && BoxRows(gtBoxes, 0) && |imShape| >= 2
    requires imShape[0] >= 1.0 && imShape[1] >= 1.0 && k < |src| + |gtBoxes|
    requires |rois| == |src| && T.Rois(rois) && T.Rois(all) && |all| == |rois| + |gtBoxes| && rois <= all
    requires forall i :: 0 <= i < |rois| ==>
               BoxAt(rois[i], 1) == Clipped(BoxAt(predicted[src[i]], 0), imShape[1], imShape[0])
    requires forall j :: 0 <= j < |gtBoxes| ==> BoxAt(all[|rois| + j], 1) == BoxAt(gtBoxes[j], 0)
    ensures BoxAt(all[k], 1) == Region(predicted, src, gtBoxes, imShape, k)
  {
    if k < |src| {
      assert all[k] == rois[k];
    } else {
      assert all[k] == all[|rois| + (k - |src|)];
    }
  }

  ghost predicate IsBestGt(rois: Matrix, gtBoxes: Matrix, i: nat, k: nat)
    requires BoxRows(rois, 1) && BoxRows(gtBoxes, 0) && i < |rois|
  {
    k < |gtBoxes| && T.BestGt(rois, gtBoxes, i, k, Iou(BoxAt(rois[i], 1), BoxAt(gtBoxes[k], 0)))
  }

  lemma BestGtOfRow(all: Matrix, rois: Matrix, gtBoxes: Matrix, from: nat, i: nat, k: nat, v: real)
    requires BoxRows(all, 1) && BoxRows(rois, 1) && BoxRows(gtBoxes, 0)
    requires from < |all| && i < |rois| && rois[i] == all[from] && T.BestGt(all, gtBoxes, from, k, v)
    ensures IsBestGt(rois, gtBoxes, i, k)
  {
  }
}
