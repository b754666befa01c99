/** The image input of the detector: flipped copies, filtering, shuffling, and one image a minibatch. */
module RoIInput {
  import opened NumpyOps
  import opened Sequences

  /** Pixel columns and rows are unsigned in the source, so a box must lie within the width to be flipped. */
  datatype PixelBox = PixelBox(x1: int, y1: int, x2: int, y2: int)

  datatype RoIDB = RoIDB(
    image: string, flipped: bool, width: nat, height: nat, boxes: seq<PixelBox>, gtClasses: seq<nat>,
    maxOverlaps: seq<real>)

  // ---------- Flipped copies ----------

  predicate InWidth(b: PixelBox, width: nat) {
    0 <= b.x1 <= b.x2 < width
  }

  function FlipBox(b: PixelBox, width: nat): PixelBox {
    b.(x1 := width - b.x2 - 1, x2 := width - b.x1 - 1)
  }

  /**
   * Flipping keeps a box within the width with its sides in order, and twice is not at all; a column goes to its mirror
   * image.
   */
  lemma FlipIsInvolution(b: PixelBox, width: nat)
    requires InWidth(b, width)
    ensures var f := FlipBox(b, width);
            InWidth(f, width) && FlipBox(f, width) == b && f.x2 - f.x1 == b.x2 - b.x1 &&
              f.x1 + b.x2 == f.x2 + b.x1 == width - 1
  {
  }

  /** Left of becomes right of. */
  lemma FlipReversesOrder(a: PixelBox, b: PixelBox, width: nat)
    requires InWidth(a, width) && InWidth(b, width)
    ensures a.x2 < b.x1 <==> FlipBox(b, width).x2 < FlipBox(a, width).x1
  {
  }

  function FlipBoxes(boxes: seq<PixelBox>, width: nat): (r: seq<PixelBox>)
    ensures |r| == |boxes|
  {
    seq(|boxes|, j requires 0 <= j < |boxes| => FlipBox(boxes[j], width))
  }

  function Flip(r: RoIDB): RoIDB {
    r.(boxes := FlipBoxes(r.boxes, r.width), flipped := true)
  }

  function Flips(s: seq<RoIDB>): (r: seq<RoIDB>)
    ensures |r| == |s|
  {
    seq(|s|, i requires 0 <= i < |s| => Flip(s[i]))
  }

  /** f shows the image of r in a mirror: columns are counted from the other side, and nothing else differs. */
  ghost predicate IsMirrorImage(f: RoIDB, r: RoIDB) {
    && f.flipped && f.image == r.image && f.width == r.width && f.height == r.height
    && f.gtClasses == r.gtClasses && f.maxOverlaps == r.maxOverlaps && |f.boxes| == |r.boxes|
    && forall j :: 0 <= j < |r.boxes| ==>
         && f.boxes[j].x1 + r.boxes[j].x2 == r.width - 1 && f.boxes[j].x2 + r.boxes[j].x1 == r.width - 1
         && f.boxes[j].y1 == r.boxes[j].y1 && f.boxes[j].y2 == r.boxes[j].y2
  }

  lemma FlipIsMirrorImage(r: RoIDB)
    ensures IsMirrorImage(Flip(r), r)
  {
  }

  method FlippedCopy(original: RoIDB) returns (copy: RoIDB)
    ensures copy == Flip(original)
  {
    var boxes := original.boxes;
    for j := 0 to |boxes|
      invariant |boxes| == |original.boxes|
      invariant forall k :: 0 <= k < |boxes| ==>
                boxes[k] == if k < j then FlipBox(original.boxes[k], original.width) else original.boxes[k]
    {
      var oldx1, oldx2 := boxes[j].x1, boxes[j].x2;
      boxes := boxes[j := boxes[j].(x1 := original.width - oldx2 - 1, x2 := original.width - oldx1 - 1)];
    }
    assert boxes == FlipBoxes(original.boxes, original.width);
    copy := original.(boxes := boxes, flipped := true);
  }

  method AppendFlippedImages(roidb0: seq<RoIDB>) returns (roidb: seq<RoIDB>)
    ensures roidb == roidb0 + Flips(roidb0)
    ensures |roidb| == 2 * |roidb0| && roidb[..|roidb0|] == roidb0
    ensures forall i :: 0 <= i < |roidb0| ==> IsMirrorImage(roidb[|roidb0| + i], roidb0[i])
  {
    roidb := roidb0;
    for i := 0 to |roidb0|
      invariant roidb == roidb0 + Flips(roidb0)[..i]
    {
      var copy := FlippedCopy(roidb[i]);
      assert Flips(roidb0)[..i + 1] == Flips(roidb0)[..i] + [copy];
      roidb := roidb + [copy];
    }
    forall i | 0 <= i < |roidb0| ensures IsMirrorImage(roidb[|roidb0| + i], roidb0[i]) {
      FlipIsMirrorImage(roidb0[i]);
      assert roidb[|roidb0| + i] == Flips(roidb0)[i];
    }
  }

  // ---------- Filtering ----------

  datatype Thresholds = Thresholds(fgThresh: real, bgHi: real, bgLo: real)

  predicate IsForeground(t: Thresholds, v: real) {
    v >= t.fgThresh
  }

  /** Background as the code tests it: below both bounds. */
  predicate IsBackground(t: Thresholds, v: real) {
    v < t.bgHi && v <= t.bgLo
  }

  /** Background as the comment on it says: within [LO, HI). */
  predicate DocumentedBackground(t: Thresholds, v: real) {
    t.bgLo <= v < t.bgHi
  }

  ghost predicate Usable(t: Thresholds, r: RoIDB) {
    exists i :: 0 <= i < |r.maxOverlaps| && (IsForeground(t, r.maxOverlaps[i]) || IsBackground(t, r.maxOverlaps[i]))
  }

  ghost predicate DocumentedUsable(t: Thresholds, r: RoIDB) {
    exists i :: 0 <= i < |r.maxOverlaps| &&
      (IsForeground(t, r.maxOverlaps[i]) || DocumentedBackground(t, r.maxOverlaps[i]))
  }

  method IsValidRoidb(t: Thresholds, r: RoIDB) returns (valid: bool)
    requires r.maxOverlaps != []
    ensures valid <==> Usable(t, r)
  {
    var fgInds := NpWhereS(r.maxOverlaps, GE, t.fgThresh);
    var bgInds := NpWhere(r.maxOverlaps, [LT, LE], [t.bgHi, t.bgLo]);
    BothBounds(t);
    valid := |fgInds| > 0 || |bgInds| > 0;
    assert fgInds != [] ==> fgInds[0] in fgInds;
    assert bgInds != [] ==> bgInds[0] in bgInds;
    if i: nat :| i < |r.maxOverlaps| && (IsForeground(t, r.maxOverlaps[i]) || IsBackground(t, r.maxOverlaps[i])) {
      assert i in fgInds || i in bgInds;
    }
  }

  lemma BothBounds(t: Thresholds)
    ensures forall v: real :: MeetsAll(v, [LT, LE], [t.bgHi, t.bgLo]) <==> IsBackground(t, v)
  {
    forall v: real ensures MeetsAll(v, [LT, LE], [t.bgHi, t.bgLo]) <==> IsBackground(t, v) {
      var comp, criteria := [LT, LE], [t.bgHi, t.bgLo];
      assert comp[0] == LT && comp[1] == LE && criteria[0] == t.bgHi && criteria[1] == t.bgLo;
      assert MeetsAll(v, comp, criteria) ==> Compare(comp[0], v, criteria[0]) && Compare(comp[1], v, criteria[1]);
    }
  }

  /**
   * The code drops an image that the comment would keep exactly when every overlap is below foreground and fails one
   * of the two bounds, and some overlap is strictly between the bounds.
   */
  lemma FilterDropsUsable(t: Thresholds, r: RoIDB)
    ensures DocumentedUsable(t, r) && !Usable(t, r) <==>
            && (forall i :: 0 <= i < |r.maxOverlaps| ==>
                  r.maxOverlaps[i] < t.fgThresh && (r.maxOverlaps[i] > t.bgLo || r.maxOverlaps[i] >= t.bgHi))
            && (exists i :: 0 <= i < |r.maxOverlaps| && t.bgLo < r.maxOverlaps[i] < t.bgHi)
  {
    if DocumentedUsable(t, r) && !Usable(t, r) {
      var i :| 0 <= i < |r.maxOverlaps| &&
        (IsForeground(t, r.maxOverlaps[i]) || DocumentedBackground(t, r.maxOverlaps[i]));
      assert t.bgLo < r.maxOverlaps[i] < t.bgHi;
    }
  }

  /**
   * The code keeps an image that the comment would drop exactly when every overlap is below foreground and outside
   * [LO, HI), and some overlap is below both bounds.
   */
  lemma FilterKeepsUnusable(t: Thresholds, r: RoIDB)
    ensures Usable(t, r) && !DocumentedUsable(t, r) <==>
            && (forall i :: 0 <= i < |r.maxOverlaps| ==>
                  r.maxOverlaps[i] < t.fgThresh && (r.maxOverlaps[i] < t.bgLo || r.maxOverlaps[i] >= t.bgHi))
            && (exists i :: 0 <= i < |r.maxOverlaps| && r.maxOverlaps[i] < t.bgLo && r.maxOverlaps[i] < t.bgHi)
  {
    if Usable(t, r) && !DocumentedUsable(t, r) {
      var i :| 0 <= i < |r.maxOverlaps| &&
        (IsForeground(t, r.maxOverlaps[i]) || IsBackground(t, r.maxOverlaps[i]));
      assert r.maxOverlaps[i] < t.bgLo && r.maxOverlaps[i] < t.bgHi;
    }
  }

  ghost function Survivors(t: Thresholds, s: seq<RoIDB>): seq<RoIDB> {
    if s == [] then [] else (if Usable(t, s[0]) then [s[0]] else []) + Survivors(t, s[1..])
  }

  function OneOverlap(v: real): RoIDB {
    RoIDB("image", false, 10, 10, [PixelBox(0, 0, 9, 9)], [1], [v])
  }

  /**
   * One image with an overlap of 1/4 under the thresholds 1/2, 1/2 and 0, and one of 1/20 with a lower bound of 1/10.
   */
  lemma FilterMismatches() returns (dropped: RoIDB, kept: RoIDB)
    ensures var t := Thresholds(0.5, 0.5, 0.0); DocumentedUsable(t, dropped) && Survivors(t, [dropped]) == []
    ensures var t := Thresholds(0.5, 0.5, 0.1); !DocumentedUsable(t, kept) && Survivors(t, [kept]) == [kept]
  {
    dropped, kept := OneOverlap(0.25), OneOverlap(0.05);
    assert dropped.maxOverlaps[0] == 0.25 && kept.maxOverlaps[0] == 0.05;
    FilterDropsUsable(Thresholds(0.5, 0.5, 0.0), dropped);
    FilterKeepsUnusable(Thresholds(0.5, 0.5, 0.1), kept);
  }

  /** Erases from the end towards the front. */
  method FilterRoidb(t: Thresholds, roidb0: seq<RoIDB>) returns (roidb: seq<RoIDB>)
    requires forall i :: 0 <= i < |roidb0| ==> roidb0[i].maxOverlaps != []
    ensures roidb == Survivors(t, roidb0)
  {
    roidb := roidb0;
    var i := |roidb0|;
    while i > 0
      invariant 0 <= i <= |roidb0| && roidb == roidb0[..i] + Survivors(t, roidb0[i..])
    {
      i := i - 1;
      assert roidb[i] == roidb0[i];
      assert roidb0[i..] == [roidb0[i]] + roidb0[i + 1..];
      var valid := IsValidRoidb(t, roidb[i]);
      if !valid {
        roidb := roidb[..i] + roidb[i + 1..];
      }
    }
  }

  /** The survivors are the usable images, in their order. */
  lemma SurvivorsAreUsable(t: Thresholds, s: seq<RoIDB>) returns (inds: seq<nat>)
    ensures IsWhere(inds, |s|, (i: nat) => i < |s| && Usable(t, s[i]))
    ensures (forall k :: 0 <= k < |inds| ==> inds[k] < |s|) && Survivors(t, s) == Pick(s, inds)
  {
    var p := (i: nat) => i < |s| && Usable(t, s[i]);
    inds := [];
    for i := 0 to |s|
      invariant IsWhere(inds, i, p) && (forall k :: 0 <= k < |inds| ==> inds[k] < |s|)
      invariant Survivors(t, s[..i]) == Pick(s, inds)
    {
      ExtendWhere(inds, i, p);
      SurvivorsExtend(t, s, i);
      if p(i) {
        inds := inds + [i];
      }
    }
    assert s[..|s|] == s;
  }

  lemma SurvivorsExtend(t: Thresholds, s: seq<RoIDB>, i: nat)
    requires i < |s|
    ensures Survivors(t, s[..i + 1]) == Survivors(t, s[..i]) + if Usable(t, s[i]) then [s[i]] else []
  {
    assert s[..i + 1] == s[..i] + [s[i]];
    SurvivorsOfConcat(t, s[..i], [s[i]]);
  }

  lemma {:induction false} SurvivorsOfConcat(t: Thresholds, a: seq<RoIDB>, b: seq<RoIDB>)
    ensures Survivors(t, a + b) == Survivors(t, a) + Survivors(t, b)
  {
    if a == [] {
      assert a + b == b;
    } else {
      assert (a + b)[1..] == a[1..] + b;
      SurvivorsOfConcat(t, a[1..], b);
    }
  }

  /** Whether an image survives depends on its overlaps alone, and its flipped copy has the same. */
  lemma {:induction false} SurvivorsOfFlips(t: Thresholds, s: seq<RoIDB>)
    ensures Survivors(t, Flips(s)) == Flips(Survivors(t, s))
  {
    if s != [] {
      assert Flips(s)[1..] == Flips(s[1..]);
      SurvivorsOfFlips(t, s[1..]);
      var rest := Survivors(t, s[1..]);
      assert Usable(t, Flip(s[0])) <==> Usable(t, s[0]);
      assert Flips([s[0]] + rest) == [Flip(s[0])] + Flips(rest);
    }
  }

  /**
   * Survivors come in pairs of an image and its flipped copy, half the list apart, so there is an even number of them.
   */
  lemma SurvivorsArePaired(t: Thresholds, s: seq<RoIDB>)
    ensures var all := Survivors(t, s + Flips(s)); var half := |all| / 2;
            && |all| == 2 * half
            && forall i :: 0 <= i < half ==> all[half + i] == Flip(all[i]) && IsMirrorImage(all[half + i], all[i])
  {
    SurvivorsOfConcat(t, s, Flips(s));
    SurvivorsOfFlips(t, s);
  }

  // ---------- Shuffling ----------

  /** The two images of pair i are of different orientation. */
  predicate Mixed(roidb: seq<RoIDB>, perm: seq<nat>, i: nat)
    requires 2 * i + 1 < |perm| && perm[2 * i] < |roidb| && perm[2 * i + 1] < |roidb|
  {
    var first, second := roidb[perm[2 * i]], roidb[perm[2 * i + 1]];
    (first.width >= first.height) != (second.width >= second.height)
  }

  /** All landscape images and then all portrait ones, each in random order. */
  ghost predicate Grouped(roidb: seq<RoIDB>, order: seq<nat>, landscapes: nat) {
    IsPermutation(order, |roidb|) && forall k :: 0 <= k < |order| ==>
      (roidb[order[k]].width >= roidb[order[k]].height <==> k < landscapes)
  }

  /** horz and vert list, in order, the images that are at least as wide as high and the others. */
  ghost predicate Split(roidb: seq<RoIDB>, horz: seq<nat>, vert: seq<nat>) {
    && IsWhere(horz, |roidb|, (i: nat) => i < |roidb| && roidb[i].width >= roidb[i].height)
    && IsWhere(vert, |roidb|, (i: nat) => i < |roidb| && roidb[i].width < roidb[i].height)
    && |horz| + |vert| == |roidb|
  }

  method GroupByOrientation(roidb: seq<RoIDB>, shuffleHorz: nat -> seq<nat>, shuffleVert: nat -> seq<nat>)
    returns (horz: seq<nat>, vert: seq<nat>, order: seq<nat>)
    requires Shuffles(shuffleHorz) && Shuffles(shuffleVert)
    ensures Split(roidb, horz, vert)
    ensures order == Pick(horz, shuffleHorz(|horz|)) + Pick(vert, shuffleVert(|vert|))
    ensures Grouped(roidb, order, |horz|)
  {
    ghost var wide := (i: nat) => i < |roidb| && roidb[i].width >= roidb[i].height;
    ghost var high := (i: nat) => i < |roidb| && roidb[i].width < roidb[i].height;
    horz, vert := [], [];
    for i := 0 to |roidb|
      invariant IsWhere(horz, i, wide) && IsWhere(vert, i, high) && |horz| + |vert| == i
    {
      ExtendWhere(horz, i, wide);
      ExtendWhere(vert, i, high);
      if roidb[i].width >= roidb[i].height {
        horz := horz + [i];
      } else {
        vert := vert + [i];
      }
    }
    var shuffledHorz, shuffledVert := Pick(horz, shuffleHorz(|horz|)), Pick(vert, shuffleVert(|vert|));
    order := shuffledHorz + shuffledVert;
    SplitIsGrouped(roidb, horz, vert, shuffleHorz(|horz|), shuffleVert(|vert|));
  }

  lemma PickedFrom(inds: seq<nat>, again: seq<nat>, n: nat, p: nat -> bool)
    requires IsWhere(inds, n, p) && IsPermutation(again, |inds|)
    ensures Distinct(Pick(inds, again))
    ensures forall k :: 0 <= k < |again| ==> Pick(inds, again)[k] < n && p(Pick(inds, again)[k])
  {
    forall k | 0 <= k < |again| ensures Pick(inds, again)[k] < n && p(Pick(inds, again)[k]) {
      assert inds[again[k]] in inds;
    }
  }

  lemma SplitIsGrouped(roidb: seq<RoIDB>, horz: seq<nat>, vert: seq<nat>, p: seq<nat>, q: seq<nat>)
    requires Split(roidb, horz, vert) && IsPermutation(p, |horz|) && IsPermutation(q, |vert|)
    ensures Grouped(roidb, Pick(horz, p) + Pick(vert, q), |horz|)
  {
    var wide := (i: nat) => i < |roidb| && roidb[i].width >= roidb[i].height;
    var high := (i: nat) => i < |roidb| && roidb[i].width < roidb[i].height;
    PickedFrom(horz, p, |roidb|, wide);
    PickedFrom(vert, q, |roidb|, high);
    var a, b := Pick(horz, p), Pick(vert, q);
    forall k | 0 <= k < |a| + |b|
      ensures (a + b)[k] < |roidb|
      ensures roidb[(a + b)[k]].width >= roidb[(a + b)[k]].height <==> k < |horz|
    {
      if k < |a| {
        assert wide(a[k]);
      } else {
        assert high(b[k - |a|]);
      }
    }
    forall i, j | 0 <= i < j < |a| + |b| ensures (a + b)[i] != (a + b)[j] {
      assert i < |horz| && j >= |horz| ==> (a + b)[i] != (a + b)[j];
    }
  }

  /** perm takes the pairs of order in the sequence that pairs gives. */
  predicate TakesPairs(order: seq<nat>, pairs: seq<nat>, perm: seq<nat>)
    requires |pairs| == |order| / 2 && forall i :: 0 <= i < |pairs| ==> pairs[i] < |order| / 2
  {
    |perm| == |order| && forall i :: 0 <= i < |pairs| ==>
      perm[2 * i] == order[2 * pairs[i]] && perm[2 * i + 1] == order[2 * pairs[i] + 1]
  }

  lemma EntryOfPairs(order: seq<nat>, pairs: seq<nat>, perm: seq<nat>, k: nat)
    requires |order| % 2 == 0 && |pairs| == |order| / 2 && forall i :: 0 <= i < |pairs| ==> pairs[i] < |order| / 2
    requires TakesPairs(order, pairs, perm) && k < |perm|
    ensures var p := 2 * pairs[k / 2] + k % 2; p < |order| && perm[k] == order[p]
  {
    var i := k / 2;
    assert k == 2 * i || k == 2 * i + 1;
    assert perm[2 * i] == order[2 * pairs[i]] && perm[2 * i + 1] == order[2 * pairs[i] + 1];
  }

  lemma PairsTakeAll(order: seq<nat>, pairs: seq<nat>, perm: seq<nat>)
    requires IsPermutation(order, |order|) && |order| % 2 == 0 && IsPermutation(pairs, |order| / 2) &&
             TakesPairs(order, pairs, perm)
    ensures IsPermutation(perm, |order|)
  {
    forall k | 0 <= k < |perm| ensures perm[k] < |order| {
      EntryOfPairs(order, pairs, perm, k);
    }
    forall k, l | 0 <= k < l < |perm| ensures perm[k] != perm[l] {
      EntryOfPairs(order, pairs, perm, k);
      EntryOfPairs(order, pairs, perm, l);
      assert k / 2 < l / 2 ==> pairs[k / 2] != pairs[l / 2];
    }
  }

  lemma MixedPairStraddles(roidb: seq<RoIDB>, order: seq<nat>, landscapes: nat, pairs: seq<nat>, perm: seq<nat>, i: nat)
    requires Grouped(roidb, order, landscapes) && |roidb| % 2 == 0 && i < |order| / 2
    requires IsPermutation(pairs, |order| / 2) && TakesPairs(order, pairs, perm)
    ensures perm[2 * i] < |roidb| && perm[2 * i + 1] < |roidb| &&
            (Mixed(roidb, perm, i) ==> 2 * pairs[i] + 1 == landscapes)
  {
    var k := 2 * pairs[i];
    assert roidb[order[k]].width >= roidb[order[k]].height <==> k < landscapes;
    assert roidb[order[k + 1]].width >= roidb[order[k + 1]].height <==> k + 1 < landscapes;
  }

  /**
   * With an even number of images the result is a permutation of them all in which at most one pair mixes orientations.
   */
  lemma PairsArePermutation(roidb: seq<RoIDB>, order: seq<nat>, landscapes: nat, pairs: seq<nat>, perm: seq<nat>)
    requires Grouped(roidb, order, landscapes) && |roidb| % 2 == 0
    requires IsPermutation(pairs, |order| / 2) && TakesPairs(order, pairs, perm)
    ensures GoodPermutation(roidb, perm)
  {
    PairsTakeAll(order, pairs, perm);
    forall i, j | 0 <= i < j < |perm| / 2 ensures !(Mixed(roidb, perm, i) && Mixed(roidb, perm, j)) {
      MixedPairStraddles(roidb, order, landscapes, pairs, perm, i);
      MixedPairStraddles(roidb, order, landscapes, pairs, perm, j);
    }
  }

  ghost predicate GoodPermutation(roidb: seq<RoIDB>, perm: seq<nat>) {
    && IsPermutation(perm, |roidb|)
    && forall i, j :: 0 <= i < j < |perm| / 2 ==> !(Mixed(roidb, perm, i) && Mixed(roidb, perm, j))
  }

  /** The random orders of one shuffle. */
  datatype Chance = Chance(horz: nat -> seq<nat>, vert: nat -> seq<nat>, pairs: nat -> seq<nat>)

  ghost predicate Fair(c: Chance) {
    Shuffles(c.horz) && Shuffles(c.vert) && Shuffles(c.pairs)
  }

  /** perm is what the given random orders make: shuffled landscapes, then shuffled portraits, in shuffled pairs. */
  ghost predicate ShuffledBy(roidb: seq<RoIDB>, c: Chance, perm: seq<nat>)
    requires Fair(c)
  {
    exists horz: seq<nat>, vert: seq<nat> :: Split(roidb, horz, vert) &&
      TakesPairs(Pick(horz, c.horz(|horz|)) + Pick(vert, c.vert(|vert|)), c.pairs(|roidb| / 2), perm)
  }

  class RoIInputLayer {
    const roidb: seq<RoIDB>
    var perm: seq<nat>
    var cur: nat

    ghost predicate Valid()
      reads this
    {
      |roidb| % 2 == 0 && |roidb| > 0 && cur <= |roidb| && GoodPermutation(roidb, perm)
    }

    /** Loads the images with their flipped copies, filters them, and shuffles. */
    constructor (t: Thresholds, loaded: seq<RoIDB>, chance: Chance)
      requires (forall i :: 0 <= i < |loaded| ==> loaded[i].maxOverlaps != []) && Fair(chance)
      requires Survivors(t, loaded) != []
      ensures roidb == Survivors(t, loaded + Flips(loaded)) && Valid() && cur == 0 && ShuffledBy(roidb, chance, perm)
    {
      var all := AppendFlippedImages(loaded);
      var kept := FilterRoidb(t, all);
      SurvivorsArePaired(t, loaded);
      SurvivorsOfConcat(t, loaded, Flips(loaded));
      roidb := kept;
      perm := [];
      new;
      ShuffleRoidbInds(chance);
    }

    method ShuffleRoidbInds(chance: Chance)
      requires Fair(chance)
      modifies this
      ensures cur == 0 && |perm| == |roidb| && (|roidb| % 2 == 0 ==> GoodPermutation(roidb, perm))
      ensures ShuffledBy(roidb, chance, perm)
    {
      var horz, vert, order := GroupByOrientation(roidb, chance.horz, chance.vert);
      var half := |roidb| / 2;
      var pairs := chance.pairs(half);
      // resize keeps what was there; with an odd number of images the last entry is not written
      var resized := if |perm| >= |roidb| then perm[..|roidb|] else perm + seq(|roidb| - |perm|, k => 0);
      for i := 0 to half
        invariant |resized| == |roidb|
        invariant forall k :: 0 <= k < i ==>
                    resized[2 * k] == order[2 * pairs[k]] && resized[2 * k + 1] == order[2 * pairs[k] + 1]
      {
        resized := resized[2 * i := order[2 * pairs[i]]][2 * i + 1 := order[2 * pairs[i] + 1]];
      }
      if |roidb| % 2 == 0 {
        PairsArePermutation(roidb, order, |horz|, pairs, resized);
      }
      perm, cur := resized, 0;
      assert TakesPairs(order, pairs, perm);
    }

    method GetNextMiniBatchInds(chance: Chance) returns (inds: seq<nat>)
      requires Valid() && Fair(chance)
      modifies this
      ensures Valid() && 0 < cur && inds == [perm[cur - 1]]
      ensures if old(cur) == |roidb| then cur == 1 && ShuffledBy(roidb, chance, perm)
              else cur == old(cur) + 1 && perm == old(perm)
    {
      if cur + 1 > |roidb| {
        ShuffleRoidbInds(chance);
      }
      inds := perm[cur..cur + 1];
      assert inds == [perm[cur]];
      cur := cur + 1;
    }
  }

  function Flatten(blocks: seq<seq<nat>>): seq<nat> {
    if blocks == [] then [] else Flatten(blocks[..|blocks| - 1]) + blocks[|blocks| - 1]
  }

  /**
   * Any number of single-image minibatches: they fall into blocks that each visit every image exactly once, and a last
   * block that visits none twice.
   */
  method Minibatches(layer: RoIInputLayer, count: nat, chances: nat -> Chance)
    returns (visited: seq<nat>, blocks: seq<seq<nat>>, rest: seq<nat>)
    requires layer.Valid() && layer.cur == 0 && forall k :: Fair(chances(k))
    modifies layer
    ensures |visited| == count && visited == Flatten(blocks) + rest
    ensures forall b :: 0 <= b < |blocks| ==> GoodPermutation(layer.roidb, blocks[b])
    ensures |rest| <= |layer.roidb| && Distinct(rest)
  {
    visited, blocks := [], [];
    for k := 0 to count
      invariant layer.Valid() && |visited| == k && visited == Flatten(blocks) + layer.perm[..layer.cur]
      invariant forall b :: 0 <= b < |blocks| ==> GoodPermutation(layer.roidb, blocks[b])
    {
      if layer.cur == |layer.roidb| {
        assert layer.perm[..layer.cur] == layer.perm;
        blocks := blocks + [layer.perm];
        assert visited == Flatten(blocks);
      }
      var inds := layer.GetNextMiniBatchInds(chances(k));
      visited := visited + inds;
    }
    rest := layer.perm[..layer.cur];
  }
}
