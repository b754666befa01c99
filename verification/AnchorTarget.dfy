/** The anchor target layer: labelling, subsampling, weights, and mapping back to all anchors. */
module AnchorTarget {
  import opened BoxMath
  import opened NumpyOps
  import opened Sequences

  // ---------- Anchors inside the image ----------

  predicate Inside(anchor: Box, border: real, height: nat, width: nat) {
    anchor.x1 >= -border && anchor.y1 >= -border && anchor.x2 < width as real + border &&
      anchor.y2 < height as real + border
  }

  /** An anchor is inside exactly if all its pixels are among those of the image, widened by the border. */
  lemma InsideMeansPixels(anchor: Box, border: nat, height: nat, width: nat)
    requires WellFormed(anchor) && HasIntegerCorners(anchor)
    ensures Inside(anchor, border as real, height, width) <==>
            Pixels(anchor) <= Grid(-(border as int), -(border as int), width - 1 + border, height - 1 + border)
  {
    var x1, y1, x2, y2 := anchor.x1.Floor, anchor.y1.Floor, anchor.x2.Floor, anchor.y2.Floor;
    assert (x1, y1) in Pixels(anchor) && (x2, y2) in Pixels(anchor);
    if Inside(anchor, border as real, height, width) {
      forall p | p in Pixels(anchor)
        ensures p in Grid(-(border as int), -(border as int), width - 1 + border, height - 1 + border)
      {
        assert p == (p.0, p.1);
      }
    }
  }

  method KeepInside(allAnchors: Matrix, border: real, height: nat, width: nat)
    returns (anchors: Matrix, indsInside: seq<nat>)
    requires BoxRows(allAnchors, 0)
    ensures IsWhere(indsInside, |allAnchors|,
                    (i: nat) => i < |allAnchors| && Inside(BoxAt(allAnchors[i], 0), border, height, width))
    ensures |anchors| == |indsInside|
    ensures forall k :: 0 <= k < |anchors| ==> indsInside[k] < |allAnchors| && anchors[k] == allAnchors[indsInside[k]]
  {
    ghost var p := (i: nat) => i < |allAnchors| && Inside(BoxAt(allAnchors[i], 0), border, height, width);
    anchors, indsInside := [], [];
    for i := 0 to |allAnchors|
      invariant IsWhere(indsInside, i, p) && |anchors| == |indsInside|
      invariant forall k :: 0 <= k < |anchors| ==>
                indsInside[k] < |allAnchors| && anchors[k] == allAnchors[indsInside[k]]
    {
      ExtendWhere(indsInside, i, p);
      if Inside(BoxAt(allAnchors[i], 0), border, height, width) {
        anchors, indsInside := anchors + [allAnchors[i]], indsInside + [i];
      }
    }
  }

  // ---------- Labelling ----------

  /** Anchor i has the largest overlap of all with ground truth j. */
  predicate ColumnMax(overlaps: Matrix, cols: nat, i: nat, j: nat)
    requires Rectangular(overlaps, cols) && i < |overlaps| && j < cols
  {
    forall k :: 0 <= k < |overlaps| ==> overlaps[k][j] <= overlaps[i][j]
  }

  ghost predicate AttainsSomeMax(overlaps: Matrix, cols: nat, i: nat)
    requires Rectangular(overlaps, cols) && i < |overlaps|
  {
    exists j: nat :: j < cols && ColumnMax(overlaps, cols, i, j)
  }

  predicate BestBelow(row: Row, threshold: real) {
    forall j :: 0 <= j < |row| ==> row[j] < threshold
  }

  /** The label an anchor gets before subsampling: 1 is positive, 0 is negative, -1 is neither. */
  ghost function LabelOf(overlaps: Matrix, cols: nat, i: nat, positive: real, negative: real, clobber: bool): int
    requires Rectangular(overlaps, cols) && i < |overlaps|
  {
    var fg := AttainsSomeMax(overlaps, cols, i) || !BestBelow(overlaps[i], positive);
    var bg := BestBelow(overlaps[i], negative);
    if clobber then if bg then 0 else if fg then 1 else -1 else if fg then 1 else if bg then 0 else -1
  }

  /** Overlap j of anchor i reaches the threshold, or is the largest of all anchors with ground truth j. */
  predicate Qualifies(overlaps: Matrix, cols: nat, i: nat, j: nat, positive: real)
    requires Rectangular(overlaps, cols) && i < |overlaps| && j < cols
  {
    overlaps[i][j] >= positive || forall k :: 0 <= k < |overlaps| ==> overlaps[k][j] <= overlaps[i][j]
  }

  /**
   * The law of labels, in overlaps and thresholds alone: 1 if some overlap qualifies, else 0 if every overlap is below
   * the other threshold, else -1; if negatives clobber, the second test comes first.
   */
  ghost predicate LabelLaw(overlaps: Matrix, cols: nat, i: nat, positive: real, negative: real, clobber: bool, lab: int)
    requires Rectangular(overlaps, cols) && i < |overlaps|
  {
    && (lab == 1 <==>
          && (exists j: nat :: j < cols && Qualifies(overlaps, cols, i, j, positive))
          && !(clobber && forall j :: 0 <= j < cols ==> overlaps[i][j] < negative))
    && (lab == 0 <==>
          && (forall j :: 0 <= j < cols ==> overlaps[i][j] < negative)
          && (clobber || forall j: nat :: j < cols ==> !Qualifies(overlaps, cols, i, j, positive)))
    && -1 <= lab <= 1
  }

  lemma LabelsAreLawful(overlaps: Matrix, cols: nat, i: nat, positive: real, negative: real, clobber: bool)
    requires Rectangular(overlaps, cols) && i < |overlaps|
    ensures LabelLaw(overlaps, cols, i, positive, negative, clobber,
                     LabelOf(overlaps, cols, i, positive, negative, clobber))
  {
    forall j: nat | j < cols
      ensures Qualifies(overlaps, cols, i, j, positive) <==>
              overlaps[i][j] >= positive || ColumnMax(overlaps, cols, i, j)
    {
    }
    if j: nat :| j < cols && Qualifies(overlaps, cols, i, j, positive) {
      assert AttainsSomeMax(overlaps, cols, i) || !BestBelow(overlaps[i], positive) by {
        assert overlaps[i][j] >= positive || ColumnMax(overlaps, cols, i, j);
      }
    } else {
      assert !AttainsSomeMax(overlaps, cols, i) && BestBelow(overlaps[i], positive);
    }
  }

  lemma ArgmaxBelow(row: Row, k: nat, threshold: real)
    requires IsArgmax(row, k)
    ensures BestBelow(row, threshold) <==> row[k] < threshold
  {
  }

  /** Rows that meet a column's maximum value attain that maximum. */
  lemma MeetingIsAttaining(overlaps: Matrix, cols: nat, gtArgmax: seq<nat>, gtMax: Row, i: nat)
    requires Rectangular(overlaps, cols) && i < |overlaps| && |gtArgmax| == |gtMax| == cols
    requires forall j :: 0 <= j < cols ==>
               IsArgmax(Column(overlaps, cols, j), gtArgmax[j]) && gtMax[j] == overlaps[gtArgmax[j]][j]
    ensures MatchesSome(overlaps[i], gtMax) <==> AttainsSomeMax(overlaps, cols, i)
  {
    forall j: nat | j < cols ensures overlaps[i][j] == gtMax[j] <==> ColumnMax(overlaps, cols, i, j) {
      var column := Column(overlaps, cols, j);
      assert IsArgmax(column, gtArgmax[j]);
      assert column[gtArgmax[j]] == gtMax[j] && column[i] == overlaps[i][j];
      assert forall k :: 0 <= k < |overlaps| ==> column[k] == overlaps[k][j];
    }
    if MatchesSome(overlaps[i], gtMax) {
      var j: nat :| j < |overlaps[i]| && j < |gtMax| && overlaps[i][j] == gtMax[j];
      assert ColumnMax(overlaps, cols, i, j);
    }
    if AttainsSomeMax(overlaps, cols, i) {
      var j: nat :| j < cols && ColumnMax(overlaps, cols, i, j);
      assert overlaps[i][j] == gtMax[j];
    }
  }

  /** Rows that attain the maximum of some column; what the second use of gtArgmaxOverlaps holds. */
  method BestForSomeGt(overlaps: Matrix, cols: nat) returns (best: seq<nat>)
    requires |overlaps| >= 1 && cols >= 1 && Rectangular(overlaps, cols)
    ensures forall i: nat :: i in best <==> i < |overlaps| && AttainsSomeMax(overlaps, cols, i)
  {
    var gtArgmaxOverlaps := NpArgmax(overlaps, cols, 0);
    assert forall j :: 0 <= j < cols ==> IsArgmax(Column(overlaps, cols, j), gtArgmaxOverlaps[j]);
    var gtMaxOverlaps := NpArrayValueByIndexArray(overlaps, cols, 0, gtArgmaxOverlaps);
    best := NpWhereAnyColumn(overlaps, gtMaxOverlaps);
    forall i: nat | i < |overlaps|
      ensures MatchesSome(overlaps[i], gtMaxOverlaps) <==> AttainsSomeMax(overlaps, cols, i)
    {
      MeetingIsAttaining(overlaps, cols, gtArgmaxOverlaps, gtMaxOverlaps, i);
    }
  }

  method LabelAnchors(overlaps: Matrix, cols: nat, positive: real, negative: real, clobber: bool)
    returns (labels: seq<int>, argmaxOverlaps: seq<nat>)
    requires |overlaps| >= 1 && cols >= 1 && Rectangular(overlaps, cols)
    ensures |labels| == |argmaxOverlaps| == |overlaps|
    ensures forall i :: 0 <= i < |overlaps| ==>
              && labels[i] == LabelOf(overlaps, cols, i, positive, negative, clobber)
              && LabelLaw(overlaps, cols, i, positive, negative, clobber, labels[i])
              && IsArgmax(overlaps[i], argmaxOverlaps[i])
  {
    argmaxOverlaps := NpArgmax(overlaps, cols, 1);
    var maxOverlaps := NpArrayValueByIndexArray(overlaps, cols, 1, argmaxOverlaps);
    forall i | 0 <= i < |overlaps|
      ensures BestBelow(overlaps[i], positive) <==> maxOverlaps[i] < positive
      ensures BestBelow(overlaps[i], negative) <==> maxOverlaps[i] < negative
    {
      ArgmaxBelow(overlaps[i], argmaxOverlaps[i], positive);
      ArgmaxBelow(overlaps[i], argmaxOverlaps[i], negative);
    }
    var best := BestForSomeGt(overlaps, cols);
    labels := seq(|overlaps|, i => -1);
    if !clobber {
      labels := SetWhereBelow(labels, maxOverlaps, negative);
    }
    ghost var before := labels;
    for i := 0 to |best|
      invariant |labels| == |overlaps| && forall k: nat :: k < |labels| ==>
                labels[k] == if k in best[..i] then 1 else before[k]
    {
      assert best[i] in best;
      labels := labels[best[i] := 1];
      assert best[..i + 1] == best[..i] + [best[i]];
    }
    assert best[..|best|] == best;
    before := labels;
    for i := 0 to |labels|
      invariant |labels| == |overlaps|
      invariant forall k :: 0 <= k < |labels| ==>
                labels[k] == if k < i && maxOverlaps[k] >= positive then 1 else before[k]
    {
      if maxOverlaps[i] >= positive {
        labels := labels[i := 1];
      }
    }
    if clobber {
      labels := SetWhereBelow(labels, maxOverlaps, negative);
    }
    forall i: nat | i < |overlaps| ensures LabelLaw(overlaps, cols, i, positive, negative, clobber, labels[i]) {
      LabelsAreLawful(overlaps, cols, i, positive, negative, clobber);
    }
  }

  /** Labels as background every anchor whose best overlap is below the threshold. */
  method SetWhereBelow(labels0: seq<int>, maxOverlaps: seq<real>, negative: real) returns (labels: seq<int>)
    requires |labels0| == |maxOverlaps|
    ensures |labels| == |labels0|
    ensures forall k :: 0 <= k < |labels| ==> labels[k] == if maxOverlaps[k] < negative then 0 else labels0[k]
  {
    labels := labels0;
    for i := 0 to |labels|
      invariant |labels| == |labels0|
      invariant forall k :: 0 <= k < |labels| ==>
                labels[k] == if k < i && maxOverlaps[k] < negative then 0 else labels0[k]
    {
      if maxOverlaps[i] < negative {
        labels := labels[i := 0];
      }
    }
  }

  /** Every ground truth has an anchor that attains its maximum, so without clobbering it has a positive one. */
  lemma EveryGtHasPositive(overlaps: Matrix, cols: nat, j: nat, positive: real, negative: real) returns (i: nat)
    requires |overlaps| >= 1 && Rectangular(overlaps, cols) && j < cols
    ensures i < |overlaps| && ColumnMax(overlaps, cols, i, j) &&
            LabelOf(overlaps, cols, i, positive, negative, false) == 1
  {
    i := ArgmaxExists(Column(overlaps, cols, j));
    assert forall k :: 0 <= k < |overlaps| ==> Column(overlaps, cols, j)[k] == overlaps[k][j];
    assert ColumnMax(overlaps, cols, i, j);
  }

  lemma ArgmaxExists(s: seq<real>) returns (k: nat)
    requires s != []
    ensures k < |s| && forall j :: 0 <= j < |s| ==> s[j] <= s[k]
  {
    k := 0;
    for n := 1 to |s|
      invariant k < n && forall j :: 0 <= j < n ==> s[j] <= s[k]
    {
      if s[n] > s[k] {
        k := n;
      }
    }
  }

  // ---------- Anchors that overlap nothing ----------

  predicate AllZero(row: Row) {
    forall j :: 0 <= j < |row| ==> row[j] == 0.0
  }

  /** Ground truth j is overlapped by no anchor. */
  predicate Missed(overlaps: Matrix, cols: nat, j: nat)
    requires Rectangular(overlaps, cols) && j < cols
  {
    forall k :: 0 <= k < |overlaps| ==> overlaps[k][j] == 0.0
  }

  /**
   * The maximum of a column counts even when it is 0: a ground truth that no anchor overlaps makes every anchor
   * positive.
   */
  lemma MissedGtMakesAllPositive(overlaps: Matrix, cols: nat, j: nat, i: nat, positive: real, negative: real)
    requires Rectangular(overlaps, cols) && j < cols && i < |overlaps| && Missed(overlaps, cols, j)
    ensures LabelOf(overlaps, cols, i, positive, negative, false) == 1
  {
    assert ColumnMax(overlaps, cols, i, j);
  }

  /** An anchor that overlaps nothing is positive exactly if a ground truth is missed and negatives do not clobber. */
  lemma UntouchedPositiveExactlyIfMissed(
      overlaps: Matrix, cols: nat, i: nat, positive: real, negative: real, clobber: bool)
    requires Rectangular(overlaps, cols) && i < |overlaps| && AllZero(overlaps[i]) && positive > 0.0
    requires forall k, j :: 0 <= k < |overlaps| && 0 <= j < cols ==> overlaps[k][j] >= 0.0
    ensures LabelOf(overlaps, cols, i, positive, negative, clobber) == 1 <==>
            (exists j: nat :: j < cols && Missed(overlaps, cols, j)) && !(clobber && negative > 0.0)
  {
    if AttainsSomeMax(overlaps, cols, i) {
      var j: nat :| j < cols && ColumnMax(overlaps, cols, i, j);
      assert overlaps[i][j] == 0.0;
      assert Missed(overlaps, cols, j);
    }
    if j: nat :| j < cols && Missed(overlaps, cols, j) {
      assert ColumnMax(overlaps, cols, i, j) && overlaps[i][j] == 0.0;
    }
  }

  ghost predicate Apart(anchors: Matrix, gtBoxes: Matrix, i: nat, j: nat)
    requires BoxRows(anchors, 0) && BoxRows(gtBoxes, 0) && i < |anchors| && j < |gtBoxes|
  {
    !Overlap(BoxAt(anchors[i], 0), BoxAt(gtBoxes[j], 0))
  }

  ghost predicate Untouched(anchors: Matrix, gtBoxes: Matrix, i: nat)
    requires BoxRows(anchors, 0) && BoxRows(gtBoxes, 0) && i < |anchors|
  {
    forall j: nat :: j < |gtBoxes| ==> Apart(anchors, gtBoxes, i, j)
  }

  ghost predicate MissedGt(anchors: Matrix, gtBoxes: Matrix, j: nat)
    requires BoxRows(anchors, 0) && BoxRows(gtBoxes, 0) && j < |gtBoxes|
  {
    forall i: nat :: i < |anchors| ==> Apart(anchors, gtBoxes, i, j)
  }

  lemma ZeroWhereApart(anchors: Matrix, gtBoxes: Matrix, overlaps: Matrix, i: nat, j: nat)
    requires BoxRows(anchors, 0) && BoxRows(gtBoxes, 0) && IsOverlapMatrix(anchors, 0, gtBoxes, 0, overlaps)
    requires i < |anchors| && j < |gtBoxes|
    ensures overlaps[i][j] >= 0.0 && (overlaps[i][j] == 0.0 <==> Apart(anchors, gtBoxes, i, j))
  {
    IouMeaning(BoxAt(anchors[i], 0), BoxAt(gtBoxes[j], 0));
  }

  /** The same in terms of the boxes that the overlaps are computed from. */
  lemma UntouchedAnchorPositive(anchors: Matrix, gtBoxes: Matrix, overlaps: Matrix, i: nat, positive: real,
        negative: real, clobber: bool)
    requires BoxRows(anchors, 0) && BoxRows(gtBoxes, 0) && IsOverlapMatrix(anchors, 0, gtBoxes, 0, overlaps)
    requires i < |anchors| && positive > 0.0 && Untouched(anchors, gtBoxes, i)
    ensures LabelOf(overlaps, |gtBoxes|, i, positive, negative, clobber) == 1 <==>
            (exists j: nat :: j < |gtBoxes| && MissedGt(anchors, gtBoxes, j)) && !(clobber && negative > 0.0)
  {
    forall k: nat, j: nat | k < |anchors| && j < |gtBoxes|
      ensures overlaps[k][j] >= 0.0 && (overlaps[k][j] == 0.0 <==> Apart(anchors, gtBoxes, k, j))
    {
      ZeroWhereApart(anchors, gtBoxes, overlaps, k, j);
    }
    UntouchedPositiveExactlyIfMissed(overlaps, |gtBoxes|, i, positive, negative, clobber);
    forall j: nat | j < |gtBoxes| ensures Missed(overlaps, |gtBoxes|, j) <==> MissedGt(anchors, gtBoxes, j) {
      if MissedGt(anchors, gtBoxes, j) {
        assert forall k: nat :: k < |anchors| ==> Apart(anchors, gtBoxes, k, j);
      }
    }
  }

  predicate BothInside(m: Matrix, height: nat, width: nat)
    requires BoxRows(m, 0)
  {
    |m| == 2 && Inside(BoxAt(m[0], 0), 0.0, height, width) && Inside(BoxAt(m[1], 0), 0.0, height, width)
  }

  /** The first anchor is the first ground truth; the second anchor and the second ground truth are on their own. */
  lemma OneMatchedPair() returns (anchors: Matrix, gtBoxes: Matrix)
    ensures BoxRows(anchors, 0) && BothInside(anchors, 100, 100)
    ensures BoxRows(gtBoxes, 0) && BothInside(gtBoxes, 100, 100)
    ensures BoxAt(anchors[0], 0) == BoxAt(gtBoxes[0], 0)
    ensures Untouched(anchors, gtBoxes, 1) && MissedGt(anchors, gtBoxes, 1)
  {
    anchors := [[0.0, 0.0, 15.0, 15.0], [32.0, 0.0, 47.0, 15.0]];
    gtBoxes := [[0.0, 0.0, 15.0, 15.0, 1.0], [80.0, 80.0, 99.0, 99.0, 2.0]];
    assert Apart(anchors, gtBoxes, 0, 1) && Apart(anchors, gtBoxes, 1, 0) && Apart(anchors, gtBoxes, 1, 1);
  }

  /** In a 100 x 100 image, an anchor that overlaps neither of two ground truths is labelled positive. */
  lemma UntouchedAnchorCanBePositive() returns (anchors: Matrix, gtBoxes: Matrix, overlaps: Matrix)
    ensures BoxRows(anchors, 0) && BothInside(anchors, 100, 100)
    ensures BoxRows(gtBoxes, 0) && BothInside(gtBoxes, 100, 100)
    ensures IsOverlapMatrix(anchors, 0, gtBoxes, 0, overlaps) && overlaps[0][0] == 1.0
    ensures Untouched(anchors, gtBoxes, 1) && LabelOf(overlaps, 2, 1, 0.7, 0.3, false) == 1
  {
    anchors, gtBoxes := OneMatchedPair();
    overlaps := seq(2, i requires 0 <= i < 2 =>
      seq(2, j requires 0 <= j < 2 => Iou(BoxAt(anchors[i], 0), BoxAt(gtBoxes[j], 0))));
    IouMeaning(BoxAt(anchors[0], 0), BoxAt(gtBoxes[0], 0));
    UntouchedAnchorPositive(anchors, gtBoxes, overlaps, 1, 0.7, 0.3, false);
  }

  // ---------- Subsampling ----------

  /** labels differ from labels0 only where a 1 or a 0 has become -1. */
  predicate OnlyDisabled(labels0: seq<int>, labels: seq<int>) {
    |labels| == |labels0| &&
    forall i :: 0 <= i < |labels| ==>
      labels[i] == labels0[i] || (labels[i] == -1 && (labels0[i] == 1 || labels0[i] == 0))
  }

  /**
   * The anchors labelled v, in the order that the shuffle gives to them: all but the last quota are disabled, and no
   * other label changes.
   */
  ghost predicate DisabledBy(labels0: seq<int>, v: int, quota: nat, shuffle: nat -> seq<nat>, labels: seq<int>)
    requires Shuffles(shuffle)
  {
    |labels| == |labels0| && exists inds: seq<nat> ::
      && IsWhere(inds, |labels0|, (i: nat) => i < |labels0| && labels0[i] == v)
      && var excess := Pick(inds, shuffle(|inds|))[..if |inds| > quota then |inds| - quota else 0];
         forall k: nat :: k < |labels| ==> labels[k] == if k in excess then -1 else labels0[k]
  }

  /** Disables all but quota of the anchors labelled v, chosen at random; the second result is how many are left. */
  method DisableExcess(labels0: seq<int>, v: int, quota: nat, shuffle: nat -> seq<nat>)
    returns (labels: seq<int>, left: nat)
    requires (v == 0 || v == 1) && Shuffles(shuffle)
    ensures OnlyDisabled(labels0, labels)
    ensures left == multiset(labels)[v] == MinNat(multiset(labels0)[v], quota)
    ensures forall u :: u != v && u != -1 ==> multiset(labels)[u] == multiset(labels0)[u]
    ensures DisabledBy(labels0, v, quota, shuffle, labels)
  {
    labels := labels0;
    var inds := NpWhereLabel(labels, v);
    WhereCounts(inds, labels, v);
    left := |inds|;
    if |inds| > quota {
      var disableInds := NprChoice(inds, |inds| - quota, shuffle(|inds|));
      ChoiceIsDistinct(inds, |inds| - quota, shuffle(|inds|), disableInds);
      forall k | 0 <= k < |disableInds| ensures disableInds[k] < |labels| && labels[disableInds[k]] == v {
        assert disableInds[k] in disableInds;
      }
      for i := 0 to |disableInds|
        invariant OnlyDisabled(labels0, labels)
        invariant multiset(labels)[v] == multiset(labels0)[v] - i
        invariant forall u :: u != v && u != -1 ==> multiset(labels)[u] == multiset(labels0)[u]
        invariant forall k :: i <= k < |disableInds| ==> disableInds[k] < |labels| && labels[disableInds[k]] == v
        invariant forall k: nat :: k < |labels| ==> labels[k] == if k in disableInds[..i] then -1 else labels0[k]
      {
        labels := labels[disableInds[i] := -1];
        assert disableInds[..i + 1] == disableInds[..i] + [disableInds[i]];
      }
      left := left - |disableInds|;
      assert disableInds[..|disableInds|] == Pick(inds, shuffle(|inds|))[..|inds| - quota];
    }
  }

  /** First positives are disabled, and then negatives, whose quota is what the positives left of the batch. */
  ghost predicate SubsampledBy(labels0: seq<int>, fgQuota: nat, batch: nat, shuffleFg: nat -> seq<nat>,
        shuffleBg: nat -> seq<nat>, labels: seq<int>)
    requires Shuffles(shuffleFg) && Shuffles(shuffleBg)
  {
    exists afterFg: seq<int> ::
      && DisabledBy(labels0, 1, fgQuota, shuffleFg, afterFg) && multiset(afterFg)[1] <= batch
      && DisabledBy(afterFg, 0, batch - multiset(afterFg)[1], shuffleBg, labels)
  }

  /** Positives first, up to their quota, and then negatives up to what is left of the batch. */
  method Subsample(labels0: seq<int>, fgQuota: nat, batch: nat, shuffleFg: nat -> seq<nat>, shuffleBg: nat -> seq<nat>)
    returns (labels: seq<int>, finalNumFg: nat, finalNumBg: nat)
    requires fgQuota <= batch
    requires Shuffles(shuffleFg) && Shuffles(shuffleBg)
    ensures OnlyDisabled(labels0, labels)
    ensures finalNumFg == multiset(labels)[1] == MinNat(multiset(labels0)[1], fgQuota)
    ensures finalNumBg == multiset(labels)[0] == MinNat(multiset(labels0)[0], batch - finalNumFg)
    ensures SubsampledBy(labels0, fgQuota, batch, shuffleFg, shuffleBg, labels)
  {
    var afterFg;
    afterFg, finalNumFg := DisableExcess(labels0, 1, fgQuota, shuffleFg);
    labels, finalNumBg := DisableExcess(afterFg, 0, batch - finalNumFg, shuffleBg);
  }

  // ---------- Mapping back to all anchors ----------

  /** result holds data[i] at position inds[i], and fill everywhere else. */
  ghost predicate IsUnmap<T(!new)>(data: seq<T>, count: nat, inds: seq<nat>, fill: T, result: seq<T>) {
    && |result| == count && |inds| == |data|
    && (forall i :: 0 <= i < |inds| ==> inds[i] < count && result[inds[i]] == data[i])
    && (forall k: nat :: k < count && k !in inds ==> result[k] == fill)
  }

  method Unmap<T(!new)>(data: seq<T>, count: nat, inds: seq<nat>, fill: T) returns (result: seq<T>)
    requires |data| == |inds| && Increasing(inds) && forall i :: 0 <= i < |inds| ==> inds[i] < count
    ensures IsUnmap(data, count, inds, fill, result)
  {
    result := seq(count, i => fill);
    for i := 0 to |inds|
      invariant |result| == count && forall k :: 0 <= k < i ==> result[inds[k]] == data[k]
      invariant forall k: nat :: k < count && k !in inds[..i] ==> result[k] == fill
    {
      result := result[inds[i] := data[i]];
      assert inds[..i + 1] == inds[..i] + [inds[i]];
    }
    assert inds[..|inds|] == inds;
  }

  /** The scatter is injective, so it keeps how often each value other than the fill occurs. */
  lemma {:induction false} UnmapKeepsCounts(data: seq<int>, count: nat, inds: seq<nat>, fill: int, result: seq<int>,
        v: int)
    requires IsUnmap(data, count, inds, fill, result) && Increasing(inds) && v != fill
    ensures multiset(result)[v] == multiset(data)[v]
  {
    if data == [] {
      NoneIn(result, fill, v);
    } else {
      var n := |data| - 1;
      var before := result[inds[n] := fill];
      UnmapWithoutLast(data, count, inds, fill, result);
      UnmapKeepsCounts(data[..n], count, inds[..n], fill, before, v);
      UpdateCount(result, inds[n], fill, v);
      LastCount(data, v);
    }
  }

  lemma LastCount(data: seq<int>, v: int)
    requires data != []
    ensures multiset(data)[v] == multiset(data[..|data| - 1])[v] + if data[|data| - 1] == v then 1 else 0
  {
    assert data == data[..|data| - 1] + [data[|data| - 1]];
  }

  lemma UnmapWithoutLast(data: seq<int>, count: nat, inds: seq<nat>, fill: int, result: seq<int>)
    requires IsUnmap(data, count, inds, fill, result) && Increasing(inds) && data != []
    ensures var n := |data| - 1;
            IsUnmap(data[..n], count, inds[..n], fill, result[inds[n] := fill]) && Increasing(inds[..n])
  {
    var n := |data| - 1;
    forall k: nat | k < count && k !in inds[..n] ensures result[inds[n] := fill][k] == fill {
      assert inds == inds[..n] + [inds[n]];
    }
  }

  lemma UpdateCount(s: seq<int>, i: nat, x: int, v: int)
    requires i < |s|
    ensures multiset(s[i := x])[v] == multiset(s)[v] - (if s[i] == v then 1 else 0) + (if x == v then 1 else 0)
  {
  }

  lemma {:induction false} NoneIn(s: seq<int>, fill: int, v: int)
    requires v != fill && forall k :: 0 <= k < |s| ==> s[k] == fill
    ensures multiset(s)[v] == 0
  {
    assert v !in s;
  }

  // ---------- Weights ----------

  function ZeroRow(): Row {
    [0.0, 0.0, 0.0, 0.0]
  }

  function OutsideRow(lab: int, uniformWeight: real): Row {
    if lab == 1 || lab == 0 then [uniformWeight, uniformWeight, uniformWeight, uniformWeight] else ZeroRow()
  }

  function Total(m: Matrix, c: nat): real
    requires forall i :: 0 <= i < |m| ==> c < |m[i]|
  {
    if m == [] then 0.0 else Total(m[..|m| - 1], c) + m[|m| - 1][c]
  }

  /** How many anchors take part in the loss. */
  function Used(labels: seq<int>): nat {
    multiset(labels)[1] + multiset(labels)[0]
  }

  lemma OneMore(n: nat, u: real)
    ensures Times(n + 1, u) == Times(n, u) + u
  {
  }

  lemma UsedByLast(labels: seq<int>)
    requires labels != []
    ensures var n := |labels| - 1;
            Used(labels) == Used(labels[..n]) + if labels[n] == 1 || labels[n] == 0 then 1 else 0
  {
    assert labels == labels[..|labels| - 1] + [labels[|labels| - 1]];
  }

  function Times(n: nat, u: real): real {
    n as real * u
  }

  lemma {:induction false} TotalOfWeights(labels: seq<int>, m: Matrix, u: real, c: nat)
    requires |m| == |labels| && c < 4 && forall i :: 0 <= i < |m| ==> m[i] == OutsideRow(labels[i], u)
    ensures (forall i :: 0 <= i < |m| ==> |m[i]| == 4) && Total(m, c) == Times(Used(labels), u)
  {
    if m != [] {
      var n := |m| - 1;
      TotalOfWeights(labels[..n], m[..n], u, c);
      UsedByLast(labels);
      OneMore(Used(labels[..n]), u);
      assert m[n][c] == if labels[n] == 1 || labels[n] == 0 then u else 0.0;
    }
  }

  method Weights(labels: seq<int>, finalNumFg: nat, finalNumBg: nat, insideWeights: Row)
    returns (inside: Matrix, outside: Matrix)
    requires finalNumFg + finalNumBg > 0 && |insideWeights| == 4
    ensures |inside| == |outside| == |labels|
    ensures forall i :: 0 <= i < |labels| ==>
              && inside[i] == (if labels[i] == 1 then insideWeights else ZeroRow())
              && outside[i] == OutsideRow(labels[i], 1.0 / (finalNumFg + finalNumBg) as real)
  {
    var uniformWeight := 1.0 / (finalNumFg + finalNumBg) as real;
    inside, outside := [], [];
    for i := 0 to |labels|
      invariant |inside| == |outside| == i
      invariant forall k :: 0 <= k < i ==>
                  && inside[k] == (if labels[k] == 1 then insideWeights else ZeroRow())
                  && outside[k] == OutsideRow(labels[k], uniformWeight)
    {
      inside := inside + [if labels[i] == 1 then insideWeights else ZeroRow()];
      outside := outside + [OutsideRow(labels[i], uniformWeight)];
    }
  }

  /** After mapping back, each coordinate of the outside weights sums to exactly 1 over all anchors. */
  lemma WeightsSumToOne(labels: seq<int>, outside: Matrix, count: nat, inds: seq<nat>, finalLabels: seq<int>,
        finalOutside: Matrix, c: nat)
    requires Used(labels) > 0 && |outside| == |labels|
    requires forall i :: 0 <= i < |labels| ==> outside[i] == OutsideRow(labels[i], 1.0 / Used(labels) as real)
    requires IsUnmap(labels, count, inds, -1, finalLabels) && IsUnmap(outside, count, inds, ZeroRow(), finalOutside) &&
             Increasing(inds)
    requires c < 4
    ensures (forall i :: 0 <= i < |finalOutside| ==> |finalOutside[i]| == 4) && Total(finalOutside, c) == 1.0
  {
    var u := 1.0 / Used(labels) as real;
    forall k | 0 <= k < count ensures finalOutside[k] == OutsideRow(finalLabels[k], u) {
      if k in inds {
        var i :| 0 <= i < |inds| && inds[i] == k;
        assert finalOutside[inds[i]] == outside[i] && finalLabels[inds[i]] == labels[i];
      }
    }
    TotalOfWeights(finalLabels, finalOutside, u, c);
    UnmapKeepsCounts(labels, count, inds, -1, finalLabels, 1);
    UnmapKeepsCounts(labels, count, inds, -1, finalLabels, 0);
    WholeShare(Used(labels));
  }

  lemma WholeShare(n: nat)
    requires n > 0
    ensures Times(n, 1.0 / n as real) == 1.0
  {
  }

  // ---------- The whole layer ----------

  /** Some anchor is positive or negative: the one that attains the first ground truth's maximum. */
  lemma SomethingLabelled(overlaps: Matrix, cols: nat, labels: seq<int>, positive: real, negative: real, clobber: bool)
    requires |overlaps| >= 1 && cols >= 1 && Rectangular(overlaps, cols) && |labels| == |overlaps|
    requires forall i :: 0 <= i < |overlaps| ==> labels[i] == LabelOf(overlaps, cols, i, positive, negative, clobber)
    ensures Used(labels) > 0 && (!clobber ==> multiset(labels)[1] > 0)
  {
    var i := EveryGtHasPositive(overlaps, cols, 0, positive, negative);
    assert labels[i] in labels;
  }

  /** TRAIN_RPN_* constants. */
  datatype Config = Config(
    border: real, positive: real, negative: real, clobber: bool, fgQuota: nat, batch: nat, insideWeights: Row)

  predicate ValidConfig(cfg: Config) {
    0 < cfg.fgQuota <= cfg.batch && |cfg.insideWeights| == 4
  }

  /** What the layer outputs for every anchor. */
  datatype Targets = Targets(labels: seq<int>, boxTargets: Matrix, inside: Matrix, outside: Matrix)

  /** The rows of an anchor outside the image. */
  predicate Ignored(t: Targets, k: nat)
    requires k < |t.labels| && SameSizes(t, |t.labels|)
  {
    t.labels[k] == -1 && t.boxTargets[k] == ZeroRow() && t.inside[k] == ZeroRow() && t.outside[k] == ZeroRow()
  }

  method UnmapAll(t: Targets, count: nat, inds: seq<nat>) returns (all: Targets)
    requires SameSizes(t, |inds|) && Increasing(inds) && forall i :: 0 <= i < |inds| ==> inds[i] < count
    ensures IsUnmap(t.labels, count, inds, -1, all.labels) &&
            IsUnmap(t.boxTargets, count, inds, ZeroRow(), all.boxTargets)
    ensures IsUnmap(t.inside, count, inds, ZeroRow(), all.inside) &&
            IsUnmap(t.outside, count, inds, ZeroRow(), all.outside)
  {
    var labels := Unmap(t.labels, count, inds, -1);
    var boxTargets := Unmap(t.boxTargets, count, inds, ZeroRow());
    var inside := Unmap(t.inside, count, inds, ZeroRow());
    var outside := Unmap(t.outside, count, inds, ZeroRow());
    all := Targets(labels, boxTargets, inside, outside);
  }

  /** Regression targets towards the ground truth that each anchor overlaps best. */
  method ComputeTargets(log: real -> real, anchors: Matrix, gtBoxes: Matrix, argmaxOverlaps: seq<nat>)
    returns (targets: Matrix)
    requires BoxRows(anchors, 0) && BoxRows(gtBoxes, 0) && |argmaxOverlaps| == |anchors|
    requires forall i :: 0 <= i < |anchors| ==> argmaxOverlaps[i] < |gtBoxes|
    ensures |targets| == |anchors|
    ensures forall i :: 0 <= i < |anchors| ==>
              && |targets[i]| == 4
              && DeltaAt(targets[i], 0) == DeltaOf(log, BoxAt(anchors[i], 0), BoxAt(gtBoxes[argmaxOverlaps[i]], 0))
  {
    var gtBoxesTemp := VecKeepByIndex(gtBoxes, argmaxOverlaps);
    targets := BboxTransform(log, anchors, 0, gtBoxesTemp, 0, seq(|anchors|, i => ZeroRow()), 0);
  }

  ghost predicate ExactLabels(cfg: Config, overlaps: Matrix, cols: nat, labels: seq<int>) {
    Rectangular(overlaps, cols) && |labels| == |overlaps| &&
    forall i :: 0 <= i < |overlaps| ==>
      && labels[i] == LabelOf(overlaps, cols, i, cfg.positive, cfg.negative, cfg.clobber)
      && LabelLaw(overlaps, cols, i, cfg.positive, cfg.negative, cfg.clobber, labels[i])
  }

  /** sampled keeps as many positives as the quota allows, then as many negatives as fit into the batch. */
  ghost predicate Sampled(cfg: Config, exact: seq<int>, sampled: seq<int>) {
    && OnlyDisabled(exact, sampled) && multiset(sampled)[1] == MinNat(multiset(exact)[1], cfg.fgQuota)
    && multiset(sampled)[1] <= cfg.batch &&
       multiset(sampled)[0] == MinNat(multiset(exact)[0], cfg.batch - multiset(sampled)[1])
  }

  predicate SameSizes(t: Targets, n: nat) {
    |t.labels| == |t.boxTargets| == |t.inside| == |t.outside| == n
  }

  /** The targets of the anchors inside the image: their regression targets and weights, by label. */
  ghost predicate InsideTargets(cfg: Config, log: real -> real, anchors: Matrix, gtBoxes: Matrix, overlaps: Matrix,
        argmax: seq<nat>, t: Targets)
    requires BoxRows(anchors, 0) && BoxRows(gtBoxes, 0)
  {
    && SameSizes(t, |anchors|) && |overlaps| == |argmax| == |anchors|
    && forall i :: 0 <= i < |anchors| ==>
         && IsArgmax(overlaps[i], argmax[i]) && argmax[i] < |gtBoxes| && |t.boxTargets[i]| == 4
         && DeltaAt(t.boxTargets[i], 0) == DeltaOf(log, BoxAt(anchors[i], 0), BoxAt(gtBoxes[argmax[i]], 0))
         && t.inside[i] == (if t.labels[i] == 1 then cfg.insideWeights else ZeroRow())
         && Used(t.labels) > 0 && t.outside[i] == OutsideRow(t.labels[i], 1.0 / Used(t.labels) as real)
  }

  /** The labels of the anchors inside the image, exact and sampled. */
  method SampleLabels(cfg: Config, anchors: Matrix, gtBoxes: Matrix, shuffleFg: nat -> seq<nat>,
        shuffleBg: nat -> seq<nat>)
    returns (overlaps: Matrix, exact: seq<int>, argmaxOverlaps: seq<nat>, labels: seq<int>, finalNumFg: nat,
            finalNumBg: nat)
    requires ValidConfig(cfg) && BoxRows(anchors, 0) && BoxRows(gtBoxes, 0) && anchors != [] && gtBoxes != []
    requires Shuffles(shuffleFg) && Shuffles(shuffleBg)
    ensures IsOverlapMatrix(anchors, 0, gtBoxes, 0, overlaps) && |argmaxOverlaps| == |labels| == |anchors|
    ensures forall i :: 0 <= i < |anchors| ==> IsArgmax(overlaps[i], argmaxOverlaps[i])
    ensures ExactLabels(cfg, overlaps, |gtBoxes|, exact) && Sampled(cfg, exact, labels)
    ensures SubsampledBy(exact, cfg.fgQuota, cfg.batch, shuffleFg, shuffleBg, labels)
    ensures finalNumFg == multiset(labels)[1] && finalNumBg == multiset(labels)[0]
    ensures Used(labels) > 0 && (!cfg.clobber ==> multiset(labels)[1] > 0)
  {
    overlaps := BboxOverlaps(anchors, 0, gtBoxes, 0);
    exact, argmaxOverlaps := LabelAnchors(overlaps, |gtBoxes|, cfg.positive, cfg.negative, cfg.clobber);
    SomethingLabelled(overlaps, |gtBoxes|, exact, cfg.positive, cfg.negative, cfg.clobber);
    labels, finalNumFg, finalNumBg := Subsample(exact, cfg.fgQuota, cfg.batch, shuffleFg, shuffleBg);
  }

  /** From the anchors inside the image to their labels, targets and weights. */
  method TargetsInside(cfg: Config, anchors: Matrix, gtBoxes: Matrix, log: real -> real, shuffleFg: nat -> seq<nat>,
        shuffleBg: nat -> seq<nat>)
    returns (overlaps: Matrix, exact: seq<int>, argmaxOverlaps: seq<nat>, t: Targets)
    requires ValidConfig(cfg) && BoxRows(anchors, 0) && BoxRows(gtBoxes, 0) && anchors != [] && gtBoxes != []
    requires Shuffles(shuffleFg) && Shuffles(shuffleBg)
    ensures IsOverlapMatrix(anchors, 0, gtBoxes, 0, overlaps)
    ensures ExactLabels(cfg, overlaps, |gtBoxes|, exact) && Sampled(cfg, exact, t.labels)
    ensures SubsampledBy(exact, cfg.fgQuota, cfg.batch, shuffleFg, shuffleBg, t.labels)
    ensures InsideTargets(cfg, log, anchors, gtBoxes, overlaps, argmaxOverlaps, t)
    ensures Used(t.labels) > 0 && (!cfg.clobber ==> multiset(t.labels)[1] > 0)
  {
    var labels, finalNumFg, finalNumBg;
    overlaps, exact, argmaxOverlaps, labels, finalNumFg, finalNumBg :=
      SampleLabels(cfg, anchors, gtBoxes, shuffleFg, shuffleBg);
    assert forall i :: 0 <= i < |anchors| ==> argmaxOverlaps[i] < |gtBoxes|;
    var boxTargets := ComputeTargets(log, anchors, gtBoxes, argmaxOverlaps);
    assert finalNumFg + finalNumBg == Used(labels);
    var inside, outside := Weights(labels, finalNumFg, finalNumBg, cfg.insideWeights);
    t := Targets(labels, boxTargets, inside, outside);
  }

  /** The result maps the targets of the anchors inside the image back, and ignores the other anchors. */
  ghost predicate MapsBack(t: Targets, inds: seq<nat>, result: Targets, count: nat) {
    && SameSizes(t, |inds|) && SameSizes(result, count) && (forall i :: 0 <= i < |inds| ==> inds[i] < count)
    && (forall i :: 0 <= i < |inds| ==>
          && result.labels[inds[i]] == t.labels[i] && result.boxTargets[inds[i]] == t.boxTargets[i]
          && result.inside[inds[i]] == t.inside[i] && result.outside[inds[i]] == t.outside[i])
    && (forall k: nat :: k < count && k !in inds ==> Ignored(result, k))
  }

  /** Each coordinate of the weights sums to 1 over all anchors. */
  ghost predicate SumsToOne(weights: Matrix) {
    (forall k :: 0 <= k < |weights| ==> |weights[k]| == 4) && forall c: nat :: c < 4 ==> Total(weights, c) == 1.0
  }

  method MapBack(t: Targets, inds: seq<nat>, count: nat) returns (result: Targets)
    requires SameSizes(t, |inds|) && Increasing(inds) && (forall i :: 0 <= i < |inds| ==> inds[i] < count)
    requires Used(t.labels) > 0 && forall i :: 0 <= i < |inds| ==>
             t.outside[i] == OutsideRow(t.labels[i], 1.0 / Used(t.labels) as real)
    ensures MapsBack(t, inds, result, count) && SumsToOne(result.outside)
    ensures multiset(result.labels)[1] == multiset(t.labels)[1] && multiset(result.labels)[0] == multiset(t.labels)[0]
  {
    result := UnmapAll(t, count, inds);
    UnmapKeepsCounts(t.labels, count, inds, -1, result.labels, 1);
    UnmapKeepsCounts(t.labels, count, inds, -1, result.labels, 0);
    WeightsSumToOne(t.labels, t.outside, count, inds, result.labels, result.outside, 0);
    WeightsSumToOne(t.labels, t.outside, count, inds, result.labels, result.outside, 1);
    WeightsSumToOne(t.labels, t.outside, count, inds, result.labels, result.outside, 2);
    WeightsSumToOne(t.labels, t.outside, count, inds, result.labels, result.outside, 3);
  }

  method Feedforward(cfg: Config, allAnchors: Matrix, gtBoxes: Matrix, height: nat, width: nat, log: real -> real,
        shuffleFg: nat -> seq<nat>, shuffleBg: nat -> seq<nat>)
    returns (anchors: Matrix, inds: seq<nat>, overlaps: Matrix, exact: seq<int>, argmaxOverlaps: seq<nat>, t: Targets,
            result: Targets)
    requires ValidConfig(cfg) && BoxRows(allAnchors, 0) && BoxRows(gtBoxes, 0) && gtBoxes != []
    requires exists i: nat :: i < |allAnchors| && Inside(BoxAt(allAnchors[i], 0), cfg.border, height, width)
    requires Shuffles(shuffleFg) && Shuffles(shuffleBg)
    ensures IsWhere(inds, |allAnchors|,
                    (i: nat) => i < |allAnchors| && Inside(BoxAt(allAnchors[i], 0), cfg.border, height, width))
    ensures |anchors| == |inds| && forall k :: 0 <= k < |inds| ==>
            inds[k] < |allAnchors| && anchors[k] == allAnchors[inds[k]]
    ensures IsOverlapMatrix(anchors, 0, gtBoxes, 0, overlaps)
    ensures ExactLabels(cfg, overlaps, |gtBoxes|, exact) && Sampled(cfg, exact, t.labels)
    ensures SubsampledBy(exact, cfg.fgQuota, cfg.batch, shuffleFg, shuffleBg, t.labels)
    ensures InsideTargets(cfg, log, anchors, gtBoxes, overlaps, argmaxOverlaps, t) &&
            MapsBack(t, inds, result, |allAnchors|)
    ensures multiset(result.labels)[1] == multiset(t.labels)[1] && multiset(result.labels)[0] == multiset(t.labels)[0]
    ensures !cfg.clobber ==> multiset(result.labels)[1] > 0
    ensures SumsToOne(result.outside)
  {
    anchors, inds := KeepInside(allAnchors, cfg.border, height, width);
    var some: nat :| some < |allAnchors| && Inside(BoxAt(allAnchors[some], 0), cfg.border, height, width);
    assert some in inds;
    overlaps, exact, argmaxOverlaps, t := TargetsInside(cfg, anchors, gtBoxes, log, shuffleFg, shuffleBg);
    result := MapBack(t, inds, |allAnchors|);
  }
}
