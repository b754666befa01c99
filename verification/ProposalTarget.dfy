/** The proposal target layer: sampling regions of interest and expanding their regression targets by class. */
module ProposalTarget {
  import opened BoxMath
  import opened NumpyOps
  import opened Sequences

  /** TRAIN_* constants and the class count; the stds divide, so none is 0. */
  datatype Config = Config(
    fgThresh: real, bgHi: real, bgLo: real, fgQuota: nat, batch: nat, numClasses: nat,
    means: Delta, stds: Delta, insideWeights: Delta)

  predicate ValidConfig(cfg: Config) {
    && cfg.fgQuota <= cfg.batch && cfg.bgHi <= cfg.fgThresh
    && cfg.stds.dx != 0.0 && cfg.stds.dy != 0.0 && cfg.stds.dw != 0.0 && cfg.stds.dh != 0.0
  }

  // ---------- Candidates ----------

  /** Rows are (0, x1, y1, x2, y2). */
  predicate Rois(m: Matrix) {
    BoxRows(m, 1) && forall i :: 0 <= i < |m| ==> |m[i]| == 5
  }

  /** Rows are (x1, y1, x2, y2, class). */
  predicate GtBoxes(m: Matrix, numClasses: nat) {
    BoxRows(m, 0) && forall i :: 0 <= i < |m| ==> |m[i]| == 5 && 0.0 <= m[i][4] < numClasses as real
  }

  function GtRoi(gt: Row): Row
    requires |gt| == 5
  {
    [0.0, gt[0], gt[1], gt[2], gt[3]]
  }

  method AppendGt(allRois: Matrix, gtBoxes: Matrix, numClasses: nat) returns (rois: Matrix)
    requires Rois(allRois) && GtBoxes(gtBoxes, numClasses)
    ensures Rois(rois) && |rois| == |allRois| + |gtBoxes| && allRois <= rois
    ensures forall j :: 0 <= j < |gtBoxes| ==> BoxAt(rois[|allRois| + j], 1) == BoxAt(gtBoxes[j], 0)
    ensures forall k :: |allRois| <= k < |rois| ==> rois[k][0] == 0.0
  {
    rois := allRois;
    for i := 0 to |gtBoxes|
      invariant Rois(rois) && |rois| == |allRois| + i && allRois <= rois
      invariant forall j :: 0 <= j < i ==> BoxAt(rois[|allRois| + j], 1) == BoxAt(gtBoxes[j], 0)
      invariant forall k :: |allRois| <= k < |rois| ==> rois[k][0] == 0.0
    {
      assert WellFormed(BoxAt(gtBoxes[i], 0));
      rois := rois + [GtRoi(gtBoxes[i])];
    }
  }

  /** What a region overlaps best, by how much, and the class of that ground truth. */
  ghost predicate Assigned(overlaps: Matrix, gtBoxes: Matrix, gtAssignment: seq<nat>, maxOverlaps: seq<real>,
        labels: seq<nat>)
    requires forall j :: 0 <= j < |gtBoxes| ==> |gtBoxes[j]| == 5
  {
    && |overlaps| == |gtAssignment| == |maxOverlaps| == |labels|
    && forall i :: 0 <= i < |overlaps| ==>
         && IsArgmax(overlaps[i], gtAssignment[i]) && gtAssignment[i] < |gtBoxes|
         && maxOverlaps[i] == overlaps[i][gtAssignment[i]] && labels[i] == gtBoxes[gtAssignment[i]][4].Floor
  }

  method Assign(rois: Matrix, gtBoxes: Matrix, numClasses: nat)
    returns (overlaps: Matrix, gtAssignment: seq<nat>, maxOverlaps: seq<real>, labels: seq<nat>)
    requires Rois(rois) && GtBoxes(gtBoxes, numClasses) && rois != [] && gtBoxes != []
    ensures IsOverlapMatrix(rois, 1, gtBoxes, 0, overlaps) &&
            Assigned(overlaps, gtBoxes, gtAssignment, maxOverlaps, labels)
  {
    overlaps := BboxOverlaps(rois, 1, gtBoxes, 0);
    gtAssignment := NpArgmax(overlaps, |gtBoxes|, 1);
    maxOverlaps := NpMaxByAxis(overlaps, |gtBoxes|);
    labels := [];
    for i := 0 to |gtAssignment|
      invariant |labels| == i && forall k :: 0 <= k < i ==> labels[k] == gtBoxes[gtAssignment[k]][4].Floor
    {
      assert IsArgmax(overlaps[i], gtAssignment[i]);
      labels := labels + [gtBoxes[gtAssignment[i]][4].Floor];
    }
    forall i | 0 <= i < |overlaps|
      ensures maxOverlaps[i] == overlaps[i][gtAssignment[i]] && gtAssignment[i] < |gtBoxes|
    {
      assert IsArgmax(overlaps[i], gtAssignment[i]);
    }
  }

  // ---------- Sampling ----------

  function Foreground(maxOverlaps: seq<real>, cfg: Config): set<nat> {
    set i: nat | i < |maxOverlaps| && maxOverlaps[i] >= cfg.fgThresh
  }

  function Background(maxOverlaps: seq<real>, cfg: Config): set<nat> {
    set i: nat | i < |maxOverlaps| && cfg.bgLo <= maxOverlaps[i] < cfg.bgHi
  }

  /** With the source's constants, every region is foreground or background and none is both. */
  lemma Partition(maxOverlaps: seq<real>, cfg: Config)
    requires cfg.bgHi == cfg.fgThresh && cfg.bgLo <= 0.0 && forall i :: 0 <= i < |maxOverlaps| ==> maxOverlaps[i] >= 0.0
    ensures Foreground(maxOverlaps, cfg) * Background(maxOverlaps, cfg) == {}
    ensures forall i :: 0 <= i < |maxOverlaps| ==> i in Foreground(maxOverlaps, cfg) + Background(maxOverlaps, cfg)
  {
  }

  /** An appended ground truth overlaps itself completely, so there is foreground. */
  lemma ForegroundExists(rois: Matrix, gtBoxes: Matrix, numClasses: nat, overlaps: Matrix, gtAssignment: seq<nat>,
        maxOverlaps: seq<real>, labels: seq<nat>, cfg: Config, i: nat, j: nat)
    requires Rois(rois) && GtBoxes(gtBoxes, numClasses) && cfg.fgThresh <= 1.0
    requires IsOverlapMatrix(rois, 1, gtBoxes, 0, overlaps) &&
             Assigned(overlaps, gtBoxes, gtAssignment, maxOverlaps, labels)
    requires i < |rois| && j < |gtBoxes| && BoxAt(rois[i], 1) == BoxAt(gtBoxes[j], 0)
    ensures maxOverlaps[i] == 1.0 && i in Foreground(maxOverlaps, cfg) &&
            BoxAt(gtBoxes[gtAssignment[i]], 0) == BoxAt(rois[i], 1)
  {
    IouMeaning(BoxAt(rois[i], 1), BoxAt(gtBoxes[j], 0));
    IouMeaning(BoxAt(rois[i], 1), BoxAt(gtBoxes[gtAssignment[i]], 0));
    assert IsArgmax(overlaps[i], gtAssignment[i]);
    assert overlaps[i][j] == 1.0;
  }

  /** A list of distinct members of a set that misses none is as long as the set is large. */
  lemma ListSize(r: seq<nat>, s: set<nat>)
    requires Distinct(r) && forall i: nat :: i in s <==> i in r
    ensures |r| == |s|
  {
    DistinctSize(r, |r|);
    assert Values(r, |r|) == s;
  }

  method ChooseInds(inds: seq<nat>, count: nat, shuffle: nat -> seq<nat>) returns (chosen: seq<nat>)
    requires count <= |inds| && Distinct(inds) && Shuffles(shuffle)
    ensures |chosen| == count && Distinct(chosen) && forall i :: 0 <= i < count ==> chosen[i] in inds
    ensures chosen == Pick(inds, shuffle(|inds|))[..count]
  {
    chosen := inds;
    if |inds| > 0 {
      chosen := NprChoice(inds, count, shuffle(|inds|));
      ChoiceIsDistinct(inds, count, shuffle(|inds|), chosen);
      assert forall i :: 0 <= i < count ==> chosen[i] in chosen;
    }
  }

  /**
   * keepInds lists fgCount foreground regions and then background ones, none twice, as many as the quotas and the
   * supply allow.
   */
  ghost predicate SampledInds(cfg: Config, maxOverlaps: seq<real>, keepInds: seq<nat>, fgCount: nat) {
    && Selection(keepInds, |maxOverlaps|)
    && fgCount == MinNat(cfg.fgQuota, |Foreground(maxOverlaps, cfg)|) <= cfg.batch
    && |keepInds| == fgCount + MinNat(cfg.batch - fgCount, |Background(maxOverlaps, cfg)|)
    && forall i :: 0 <= i < |keepInds| ==>
         if i < fgCount then maxOverlaps[keepInds[i]] >= cfg.fgThresh
         else cfg.bgLo <= maxOverlaps[keepInds[i]] < cfg.bgHi
  }

  /** The foreground regions in the order that one shuffle gives to them, and then the background ones by another. */
  ghost predicate ChosenBy(cfg: Config, maxOverlaps: seq<real>, shuffleFg: nat -> seq<nat>, shuffleBg: nat -> seq<nat>,
        keepInds: seq<nat>, fgCount: nat)
    requires Shuffles(shuffleFg) && Shuffles(shuffleBg)
  {
    && fgCount <= |keepInds|
    && DrawnFrom(Foreground(maxOverlaps, cfg), shuffleFg, keepInds[..fgCount])
    && DrawnFrom(Background(maxOverlaps, cfg), shuffleBg, keepInds[fgCount..])
  }

  /** The first members of a set, in the order that a shuffle gives to them. */
  ghost predicate DrawnFrom(s: set<nat>, shuffle: nat -> seq<nat>, drawn: seq<nat>)
    requires Shuffles(shuffle)
  {
    exists inds: seq<nat> :: Lists(inds, s) && |drawn| <= |inds| && drawn == Pick(inds, shuffle(|inds|))[..|drawn|]
  }

  ghost predicate Lists(inds: seq<nat>, s: set<nat>) {
    Increasing(inds) && forall i: nat :: i in s <==> i in inds
  }

  method SampleInds(cfg: Config, maxOverlaps: seq<real>, shuffleFg: nat -> seq<nat>, shuffleBg: nat -> seq<nat>)
    returns (keepInds: seq<nat>, fgCount: nat)
    requires ValidConfig(cfg) && maxOverlaps != [] && Shuffles(shuffleFg) && Shuffles(shuffleBg)
    ensures SampledInds(cfg, maxOverlaps, keepInds, fgCount) &&
            ChosenBy(cfg, maxOverlaps, shuffleFg, shuffleBg, keepInds, fgCount)
  {
    var fgInds := NpWhereS(maxOverlaps, GE, cfg.fgThresh);
    ListSize(fgInds, Foreground(maxOverlaps, cfg));
    fgCount := MinNat(cfg.fgQuota, |fgInds|);
    var chosenFg := ChooseInds(fgInds, fgCount, shuffleFg);
    var bgInds := NpWhere(maxOverlaps, [LT, GE], [cfg.bgHi, cfg.bgLo]);
    BothConditions(maxOverlaps, cfg, bgInds);
    ListSize(bgInds, Background(maxOverlaps, cfg));
    var bgCount := MinNat(cfg.batch - fgCount, |bgInds|);
    var chosenBg := ChooseInds(bgInds, bgCount, shuffleBg);
    keepInds := chosenFg + chosenBg;
    assert keepInds[..fgCount] == chosenFg && keepInds[fgCount..] == chosenBg;
    assert Lists(fgInds, Foreground(maxOverlaps, cfg)) && Lists(bgInds, Background(maxOverlaps, cfg));
    forall i | 0 <= i < |keepInds|
      ensures keepInds[i] < |maxOverlaps| &&
              if i < fgCount then maxOverlaps[keepInds[i]] >= cfg.fgThresh
              else cfg.bgLo <= maxOverlaps[keepInds[i]] < cfg.bgHi
    {
      assert i < fgCount ==> chosenFg[i] in fgInds;
      assert i >= fgCount ==> chosenBg[i - fgCount] in bgInds;
    }
  }

  lemma BothConditions(maxOverlaps: seq<real>, cfg: Config, r: seq<nat>)
    requires IsWhere(r, |maxOverlaps|,
                     (i: nat) => i < |maxOverlaps| && MeetsAll(maxOverlaps[i], [LT, GE], [cfg.bgHi, cfg.bgLo]))
    ensures forall i: nat :: i in r <==> i < |maxOverlaps| && cfg.bgLo <= maxOverlaps[i] < cfg.bgHi
  {
    forall v: real ensures MeetsAll(v, [LT, GE], [cfg.bgHi, cfg.bgLo]) <==> cfg.bgLo <= v < cfg.bgHi {
      var comp, criteria := [LT, GE], [cfg.bgHi, cfg.bgLo];
      assert comp[0] == LT && comp[1] == GE && criteria[0] == cfg.bgHi && criteria[1] == cfg.bgLo;
      assert MeetsAll(v, comp, criteria) ==> Compare(comp[0], v, criteria[0]) && Compare(comp[1], v, criteria[1]);
    }
  }

  // ---------- Targets ----------

  function Normalized(d: Delta, cfg: Config): Delta
    requires ValidConfig(cfg)
  {
    Delta((d.dx - cfg.means.dx) / cfg.stds.dx, (d.dy - cfg.means.dy) / cfg.stds.dy,
          (d.dw - cfg.means.dw) / cfg.stds.dw, (d.dh - cfg.means.dh) / cfg.stds.dh)
  }

  /** Scaling by the deviations and adding the means gives the targets back, coordinate by coordinate. */
  lemma NormalizedBack(d: Delta, cfg: Config)
    requires ValidConfig(cfg)
    ensures var n := Normalized(d, cfg);
            && n.dx * cfg.stds.dx + cfg.means.dx == d.dx && n.dy * cfg.stds.dy + cfg.means.dy == d.dy
            && n.dw * cfg.stds.dw + cfg.means.dw == d.dw && n.dh * cfg.stds.dh + cfg.means.dh == d.dh
  {
  }

  /** Rows (label, dx, dy, dw, dh) of normalized targets. */
  ghost predicate TargetData(cfg: Config, log: real -> real, rois: Matrix, gtRois: Matrix, labels: seq<nat>,
        data: Matrix)
    requires ValidConfig(cfg) && BoxRows(rois, 1) && BoxRows(gtRois, 0) && |rois| == |gtRois| == |labels|
  {
    |data| == |rois| && forall i :: 0 <= i < |rois| ==>
      && |data[i]| == 5 && data[i][0] == labels[i] as real
      && DeltaAt(data[i], 1) == Normalized(DeltaOf(log, BoxAt(rois[i], 1), BoxAt(gtRois[i], 0)), cfg)
  }

  method ComputeTargets(cfg: Config, log: real -> real, rois: Matrix, gtRois: Matrix, labels: seq<nat>)
    returns (targets: Matrix)
    requires ValidConfig(cfg) && BoxRows(rois, 1) && BoxRows(gtRois, 0) && |rois| == |gtRois| == |labels|
    ensures TargetData(cfg, log, rois, gtRois, labels, targets)
  {
    var raw := BboxTransform(log, rois, 1, gtRois, 0, seq(|rois|, i => [0.0, 0.0, 0.0, 0.0, 0.0]), 1);
    targets := raw;
    for i := 0 to |rois|
      invariant |targets| == |rois| && forall k :: i <= k < |rois| ==> targets[k] == raw[k]
      invariant forall k :: 0 <= k < i ==>
                |targets[k]| == 5 && DeltaAt(targets[k], 1) == Normalized(DeltaAt(raw[k], 1), cfg)
    {
      var d := Normalized(DeltaAt(targets[i], 1), cfg);
      targets := targets[i := WithFour(targets[i], 1, d.dx, d.dy, d.dw, d.dh)];
    }
    ghost var normal := targets;
    for i := 0 to |rois|
      invariant |targets| == |rois| && forall k :: i <= k < |rois| ==> targets[k] == normal[k]
      invariant forall k :: 0 <= k < i ==> targets[k] == normal[k][0 := labels[k] as real]
    {
      targets := targets[i := targets[i][0 := labels[i] as real]];
    }
  }

  function Zeros(n: nat): Row {
    seq(n, k => 0.0)
  }

  /** Zero everywhere but in the four columns of one class; the class 0 has none. */
  ghost predicate OnlyClass(row: Row, numClasses: nat, cls: nat, d: Delta) {
    && |row| == 4 * numClasses
    && (cls > 0 ==> cls < numClasses && DeltaAt(row, 4 * cls) == d)
    && forall k :: 0 <= k < |row| && (cls == 0 || !(4 * cls <= k < 4 * cls + 4)) ==> row[k] == 0.0
  }

  /** Expands (class, dx, dy, dw, dh) rows to four columns a class. */
  method GetBboxRegressionLabels(cfg: Config, data: Matrix, labels: seq<nat>) returns (targets: Matrix, inside: Matrix)
    requires |labels| == |data| && forall i :: 0 <= i < |data| ==>
               |data[i]| == 5 && data[i][0] == labels[i] as real && labels[i] < cfg.numClasses
    ensures |targets| == |inside| == |data|
    ensures forall i :: 0 <= i < |data| ==>
              && OnlyClass(targets[i], cfg.numClasses, labels[i], DeltaAt(data[i], 1))
              && OnlyClass(inside[i], cfg.numClasses, labels[i], cfg.insideWeights)
  {
    targets, inside := [], [];
    for i := 0 to |data|
      invariant |targets| == |inside| == i
      invariant forall k :: 0 <= k < i ==>
                  && OnlyClass(targets[k], cfg.numClasses, labels[k], DeltaAt(data[k], 1))
                  && OnlyClass(inside[k], cfg.numClasses, labels[k], cfg.insideWeights)
    {
      var target, weight := Zeros(4 * cfg.numClasses), Zeros(4 * cfg.numClasses);
      var cls := data[i][0].Floor;
      if cls > 0 {
        var start := 4 * cls;
        target := WithFour(target, start, data[i][1], data[i][2], data[i][3], data[i][4]);
        var w := cfg.insideWeights;
        weight := WithFour(weight, start, w.dx, w.dy, w.dw, w.dh);
      }
      targets, inside := targets + [target], inside + [weight];
    }
  }

  predicate MarksPositive(inside: Row, outside: Row) {
    |outside| == |inside| && forall k :: 0 <= k < |inside| ==> outside[k] == if inside[k] > 0.0 then 1.0 else 0.0
  }

  /** 1 where there is an inside weight, and 0 elsewhere. */
  method OutsideWeights(inside: Matrix) returns (outside: Matrix)
    ensures |outside| == |inside|
    ensures forall i :: 0 <= i < |inside| ==> MarksPositive(inside[i], outside[i])
  {
    outside := [];
    for i := 0 to |inside|
      invariant |outside| == i
      invariant forall m :: 0 <= m < i ==> MarksPositive(inside[m], outside[m])
    {
      var row := [];
      for j := 0 to |inside[i]|
        invariant |row| == j && forall k :: 0 <= k < j ==> row[k] == if inside[i][k] > 0.0 then 1.0 else 0.0
      {
        row := row + [if inside[i][j] > 0.0 then 1.0 else 0.0];
      }
      outside := outside + [row];
    }
  }

  // ---------- The whole layer ----------

  /** The classes of the sampled regions: those of their best ground truths, and 0 past the foreground. */
  method ClampLabels(labels: seq<nat>, keepInds: seq<nat>, fgCount: nat) returns (final: seq<nat>)
    requires fgCount <= |keepInds| && forall i :: 0 <= i < |keepInds| ==> keepInds[i] < |labels|
    ensures |final| == |keepInds|
    ensures forall i :: 0 <= i < fgCount ==> final[i] == labels[keepInds[i]]
    ensures forall i :: fgCount <= i < |keepInds| ==> final[i] == 0
  {
    final := VecKeepByIndex(labels, keepInds);
    for i := fgCount to |final|
      invariant |final| == |keepInds| && forall k :: fgCount <= k < i ==> final[k] == 0
      invariant forall k :: 0 <= k < |final| && !(fgCount <= k < i) ==> final[k] == labels[keepInds[k]]
    {
      final := final[i := 0];
    }
  }

  datatype Sample = Sample(labels: seq<nat>, rois: Matrix, targets: Matrix, inside: Matrix)

  /** Row i of a sample, taken from region src of all those considered. */
  ghost predicate SampleRow(cfg: Config, log: real -> real, all: Matrix, gtBoxes: Matrix, gtAssignment: seq<nat>,
        s: Sample, i: nat, src: nat)
    requires ValidConfig(cfg) && BoxRows(all, 1) && BoxRows(gtBoxes, 0) && src < |all| == |gtAssignment|
    requires gtAssignment[src] < |gtBoxes| && |s.labels| == |s.rois| == |s.targets| == |s.inside| && i < |s.labels|
  {
    var d := Normalized(DeltaOf(log, BoxAt(all[src], 1), BoxAt(gtBoxes[gtAssignment[src]], 0)), cfg);
    && s.rois[i] == all[src]
    && OnlyClass(s.targets[i], cfg.numClasses, s.labels[i], d) &&
       OnlyClass(s.inside[i], cfg.numClasses, s.labels[i], cfg.insideWeights)
  }

  /** From the chosen regions to their labels, targets and weights. */
  method Expand(cfg: Config, log: real -> real, all: Matrix, gtBoxes: Matrix, gtAssignment: seq<nat>, labels0: seq<nat>,
        keepInds: seq<nat>, fgCount: nat)
    returns (s: Sample)
    requires ValidConfig(cfg) && Rois(all) && BoxRows(gtBoxes, 0) && |all| == |gtAssignment| == |labels0| &&
             fgCount <= |keepInds|
    requires forall i :: 0 <= i < |all| ==> gtAssignment[i] < |gtBoxes| && labels0[i] < cfg.numClasses
    requires Selection(keepInds, |all|) && (keepInds != [] ==> cfg.numClasses > 0)
    ensures |s.labels| == |s.rois| == |s.targets| == |s.inside| == |keepInds|
    ensures forall i :: 0 <= i < |keepInds| ==>
              && s.labels[i] == (if i < fgCount then labels0[keepInds[i]] else 0)
              && SampleRow(cfg, log, all, gtBoxes, gtAssignment, s, i, keepInds[i])
  {
    var labels := ClampLabels(labels0, keepInds, fgCount);
    var rois := VecKeepByIndex(all, keepInds);
    var gtInds := VecKeepByIndex(gtAssignment, keepInds);
    var gtRois := VecKeepByIndex(gtBoxes, gtInds);
    var data := ComputeTargets(cfg, log, rois, gtRois, labels);
    var targets, inside := GetBboxRegressionLabels(cfg, data, labels);
    s := Sample(labels, rois, targets, inside);
  }

  /**
   * A sampled region with a class overlaps that class's ground truth enough, and has targets towards it in that class's
   * columns alone; any other row is zero.
   */
  ghost predicate RowMeaning(cfg: Config, log: real -> real, gtBoxes: Matrix, s: Sample, outside: Matrix, i: nat,
        j: nat)
    requires ValidConfig(cfg) && BoxRows(gtBoxes, 0) && j < |gtBoxes| && |gtBoxes[j]| == 5 && BoxRows(s.rois, 1)
    requires |s.labels| == |s.rois| == |s.targets| == |s.inside| == |outside| && i < |s.labels|
  {
    var c, roi, gt := s.labels[i], BoxAt(s.rois[i], 1), BoxAt(gtBoxes[j], 0);
    && (c > 0 ==> Iou(roi, gt) >= cfg.fgThresh && c == gtBoxes[j][4].Floor)
    && OnlyClass(s.targets[i], cfg.numClasses, c, Normalized(DeltaOf(log, roi, gt), cfg))
    && |outside[i]| == |s.inside[i]| == 4 * cfg.numClasses
    && forall k :: 0 <= k < 4 * cfg.numClasses ==>
         (s.inside[i][k] != 0.0 <==> c > 0 && 4 * c <= k < 4 * c + 4) &&
           outside[i][k] == if s.inside[i][k] != 0.0 then 1.0 else 0.0
  }

  predicate PositiveWeights(cfg: Config) {
    cfg.insideWeights.dx > 0.0 && cfg.insideWeights.dy > 0.0 && cfg.insideWeights.dw > 0.0 && cfg.insideWeights.dh > 0.0
  }

  lemma WeightColumns(cfg: Config, inside: Row, outside: Row, cls: nat)
    requires PositiveWeights(cfg) && OnlyClass(inside, cfg.numClasses, cls, cfg.insideWeights) &&
             MarksPositive(inside, outside)
    ensures forall k :: 0 <= k < |inside| ==>
              && (inside[k] != 0.0 <==> cls > 0 && 4 * cls <= k < 4 * cls + 4)
              && outside[k] == if inside[k] != 0.0 then 1.0 else 0.0
  {
    if cls > 0 {
      var d := DeltaAt(inside, 4 * cls);
      forall k | 4 * cls <= k < 4 * cls + 4 ensures inside[k] > 0.0 {
        assert inside[k] == d.dx || inside[k] == d.dy || inside[k] == d.dw || inside[k] == d.dh;
      }
    }
  }

  lemma RowMeans(cfg: Config, log: real -> real, all: Matrix, gtBoxes: Matrix, overlaps: Matrix, gtAssignment: seq<nat>,
        maxOverlaps: seq<real>, labels: seq<nat>, s: Sample, outside: Matrix, i: nat, src: nat)
    requires ValidConfig(cfg) && PositiveWeights(cfg) && Rois(all) && GtBoxes(gtBoxes, cfg.numClasses) &&
             BoxRows(s.rois, 1)
    requires IsOverlapMatrix(all, 1, gtBoxes, 0, overlaps) &&
             Assigned(overlaps, gtBoxes, gtAssignment, maxOverlaps, labels)
    requires |s.labels| == |s.rois| == |s.targets| == |s.inside| == |outside| && i < |s.labels| && src < |all|
    requires SampleRow(cfg, log, all, gtBoxes, gtAssignment, s, i, src) && MarksPositive(s.inside[i], outside[i])
    requires s.labels[i] == 0 || (s.labels[i] == labels[src] && maxOverlaps[src] >= cfg.fgThresh)
    ensures RowMeaning(cfg, log, gtBoxes, s, outside, i, gtAssignment[src])
  {
    WeightColumns(cfg, s.inside[i], outside[i], s.labels[i]);
  }

  /** Ground truth k overlaps region i by v: no other overlaps it more, and none before k as much. */
  ghost predicate BestGt(rois: Matrix, gtBoxes: Matrix, i: nat, k: nat, v: real)
    requires BoxRows(rois, 1) && BoxRows(gtBoxes, 0) && i < |rois|
  {
    && k < |gtBoxes| && v == Iou(BoxAt(rois[i], 1), BoxAt(gtBoxes[k], 0))
    && (forall j :: 0 <= j < |gtBoxes| ==> Iou(BoxAt(rois[i], 1), BoxAt(gtBoxes[j], 0)) <= v)
    && (forall j :: 0 <= j < k ==> Iou(BoxAt(rois[i], 1), BoxAt(gtBoxes[j], 0)) < v)
  }

  lemma AssignedIsBest(rois: Matrix, gtBoxes: Matrix, overlaps: Matrix, gtAssignment: seq<nat>, maxOverlaps: seq<real>,
        labels: seq<nat>, i: nat)
    requires BoxRows(rois, 1) && BoxRows(gtBoxes, 0) && forall j :: 0 <= j < |gtBoxes| ==> |gtBoxes[j]| == 5
    requires IsOverlapMatrix(rois, 1, gtBoxes, 0, overlaps) && i < |rois|
    requires Assigned(overlaps, gtBoxes, gtAssignment, maxOverlaps, labels)
    ensures BestGt(rois, gtBoxes, i, gtAssignment[i], maxOverlaps[i])
  {
    forall j | 0 <= j < |gtBoxes| ensures overlaps[i][j] == Iou(BoxAt(rois[i], 1), BoxAt(gtBoxes[j], 0)) {
    }
    assert IsArgmax(overlaps[i], gtAssignment[i]);
  }

  /** The first half of the layer: which regions are sampled, and what each of them overlaps best. */
  method AssignAndSample(cfg: Config, allRois: Matrix, gtBoxes: Matrix, shuffleFg: nat -> seq<nat>,
        shuffleBg: nat -> seq<nat>)
    returns (all: Matrix, overlaps: Matrix, maxOverlaps: seq<real>, gtAssignment: seq<nat>, labels: seq<nat>,
            keepInds: seq<nat>, fgCount: nat)
    requires ValidConfig(cfg) && Rois(allRois) && GtBoxes(gtBoxes, cfg.numClasses) && gtBoxes != []
    requires Shuffles(shuffleFg) && Shuffles(shuffleBg)
    ensures |all| == |allRois| + |gtBoxes| == |maxOverlaps| == |gtAssignment| && allRois <= all && Rois(all)
    ensures forall j :: 0 <= j < |gtBoxes| ==> BoxAt(all[|allRois| + j], 1) == BoxAt(gtBoxes[j], 0)
    ensures IsOverlapMatrix(all, 1, gtBoxes, 0, overlaps)
    ensures Assigned(overlaps, gtBoxes, gtAssignment, maxOverlaps, labels)
    ensures SampledInds(cfg, maxOverlaps, keepInds, fgCount) &&
            ChosenBy(cfg, maxOverlaps, shuffleFg, shuffleBg, keepInds, fgCount)
    ensures 0 < cfg.fgQuota && cfg.fgThresh <= 1.0 ==> fgCount > 0
  {
    all := AppendGt(allRois, gtBoxes, cfg.numClasses);
    overlaps, gtAssignment, maxOverlaps, labels := Assign(all, gtBoxes, cfg.numClasses);
    keepInds, fgCount := SampleInds(cfg, maxOverlaps, shuffleFg, shuffleBg);
    if cfg.fgThresh <= 1.0 {
      ForegroundExists(all, gtBoxes, cfg.numClasses, overlaps, gtAssignment, maxOverlaps, labels, cfg, |allRois|, 0);
    }
  }

  method Feedforward(cfg: Config, log: real -> real, allRois: Matrix, gtBoxes: Matrix, shuffleFg: nat -> seq<nat>,
        shuffleBg: nat -> seq<nat>)
    returns (s: Sample, outside: Matrix, all: Matrix, maxOverlaps: seq<real>, gtAssignment: seq<nat>,
            keepInds: seq<nat>, fgCount: nat)
    requires ValidConfig(cfg) && Rois(allRois) && GtBoxes(gtBoxes, cfg.numClasses) && gtBoxes != []
    requires PositiveWeights(cfg) && Shuffles(shuffleFg) && Shuffles(shuffleBg)
    ensures |all| == |allRois| + |gtBoxes| == |maxOverlaps| == |gtAssignment| && allRois <= all && Rois(all)
    ensures forall j :: 0 <= j < |gtBoxes| ==> BoxAt(all[|allRois| + j], 1) == BoxAt(gtBoxes[j], 0)
    ensures forall i: nat :: i < |all| ==> BestGt(all, gtBoxes, i, gtAssignment[i], maxOverlaps[i])
    ensures SampledInds(cfg, maxOverlaps, keepInds, fgCount) &&
            ChosenBy(cfg, maxOverlaps, shuffleFg, shuffleBg, keepInds, fgCount)
    ensures 0 < cfg.fgQuota && cfg.fgThresh <= 1.0 ==> fgCount > 0
    ensures |s.labels| == |s.rois| == |s.targets| == |s.inside| == |outside| == |keepInds|
    ensures forall i :: 0 <= i < |keepInds| ==>
              && s.rois[i] == all[keepInds[i]] && gtAssignment[keepInds[i]] < |gtBoxes|
              && WellFormed(BoxAt(s.rois[i], 1))
              && s.labels[i] == if i < fgCount then gtBoxes[gtAssignment[keepInds[i]]][4].Floor else 0
    ensures forall i :: 0 <= i < |keepInds| ==> RowMeaning(cfg, log, gtBoxes, s, outside, i, gtAssignment[keepInds[i]])
  {
    var overlaps, labels;
    all, overlaps, maxOverlaps, gtAssignment, labels, keepInds, fgCount :=
      AssignAndSample(cfg, allRois, gtBoxes, shuffleFg, shuffleBg);
    forall i: nat | i < |all| ensures BestGt(all, gtBoxes, i, gtAssignment[i], maxOverlaps[i]) {
      AssignedIsBest(all, gtBoxes, overlaps, gtAssignment, maxOverlaps, labels, i);
    }
    s := Expand(cfg, log, all, gtBoxes, gtAssignment, labels, keepInds, fgCount);
    outside := OutsideWeights(s.inside);
    assert BoxRows(s.rois, 1) by {
      forall i | 0 <= i < |s.rois| ensures 5 <= |s.rois[i]| && WellFormed(BoxAt(s.rois[i], 1)) {
        assert SampleRow(cfg, log, all, gtBoxes, gtAssignment, s, i, keepInds[i]);
      }
    }
    forall i | 0 <= i < |keepInds| ensures RowMeaning(cfg, log, gtBoxes, s, outside, i, gtAssignment[keepInds[i]]) {
      RowMeans(cfg, log, all, gtBoxes, overlaps, gtAssignment, maxOverlaps, labels, s, outside, i, keepInds[i]);
    }
  }
}
