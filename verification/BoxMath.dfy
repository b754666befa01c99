/** Box arithmetic in exact reals: overlap, regression targets and their inverse, and clipping. */
module BoxMath {

  datatype Box = Box(x1: real, y1: real, x2: real, y2: real)

  type Row = seq<real>
  type Matrix = seq<Row>

  predicate WellFormed(b: Box) {
    b.x1 <= b.x2 && b.y1 <= b.y2
  }

  function BoxAt(row: Row, offset: nat): Box
    requires offset + 4 <= |row|
  {
    Box(row[offset], row[offset + 1], row[offset + 2], row[offset + 3])
  }

  function Max(a: real, b: real): real {
    if a < b then b else a
  }

  function Min(a: real, b: real): real {
    if b < a then b else a
  }

  function Width(b: Box): real {
    b.x2 - b.x1 + 1.0
  }

  function Height(b: Box): real {
    b.y2 - b.y1 + 1.0
  }

  function Area(b: Box): real {
    Width(b) * Height(b)
  }

  // ---------- Overlap ----------

  function Intersection(a: Box, b: Box): Box {
    Box(Max(a.x1, b.x1), Max(a.y1, b.y1), Min(a.x2, b.x2), Min(a.y2, b.y2))
  }

  function Iou(a: Box, b: Box): real
    requires WellFormed(a) && WellFormed(b)
  {
    var common := Intersection(a, b);
    if WellFormed(common) then
      IntersectionArea(a, b);
      Area(common) / (Area(a) + Area(b) - Area(common))
    else
      0.0
  }

  predicate Contains(b: Box, x: real, y: real) {
    b.x1 <= x <= b.x2 && b.y1 <= y <= b.y2
  }

  ghost predicate Overlap(a: Box, b: Box) {
    exists x, y :: Contains(a, x, y) && Contains(b, x, y)
  }

  lemma ProductSign(a: real, b: real)
    requires 0.0 <= a && 0.0 <= b
    ensures 0.0 <= a * b && (0.0 < a && 0.0 < b ==> 0.0 < a * b)
  {
  }

  lemma ProductOrder(a: real, b: real, c: real, d: real)
    requires 0.0 < a <= c && 0.0 < b <= d
    ensures 0.0 < a * b <= c * d
    ensures a * b == c * d ==> a == c && b == d
  {
    ProductSign(a, b);
    ProductSign(c - a, b);
    ProductSign(c, d - b);
    assert c * d - a * b == (c - a) * b + c * (d - b);
  }

  lemma IntersectionArea(a: Box, b: Box)
    requires WellFormed(a) && WellFormed(b) && WellFormed(Intersection(a, b))
    ensures 0.0 < Area(Intersection(a, b)) <= Area(a) && Area(Intersection(a, b)) <= Area(b)
    ensures Area(Intersection(a, b)) == Area(a) ==> Intersection(a, b) == a
    ensures Area(Intersection(a, b)) == Area(b) ==> Intersection(a, b) == b
  {
    var common := Intersection(a, b);
    ProductOrder(Width(common), Height(common), Width(a), Height(a));
    ProductOrder(Width(common), Height(common), Width(b), Height(b));
  }

  lemma Fraction(i: real, u: real)
    requires 0.0 < i <= u
    ensures 0.0 < i / u <= 1.0 && (i / u == 1.0 <==> i == u)
  {
  }

  lemma DivTimes(a: real, b: real)
    requires b > 0.0
    ensures a / b * b == a && (a > 0.0 ==> a / b > 0.0)
  {
  }

  lemma IouSymmetric(a: Box, b: Box)
    requires WellFormed(a) && WellFormed(b)
    ensures Iou(a, b) == Iou(b, a)
  {
    assert Intersection(a, b) == Intersection(b, a);
  }

  /**
   * The overlap of two boxes is between 0 and 1; it is 0 just when they have no point in common, and 1 just when they
   * are the same.
   */
  lemma IouMeaning(a: Box, b: Box)
    requires WellFormed(a) && WellFormed(b)
    ensures 0.0 <= Iou(a, b) <= 1.0
    ensures Iou(a, b) == 0.0 <==> !Overlap(a, b)
    ensures Iou(a, b) == 1.0 <==> a == b
  {
    var common := Intersection(a, b);
    if WellFormed(common) {
      assert Contains(a, common.x1, common.y1) && Contains(b, common.x1, common.y1);
      IntersectionArea(a, b);
      Fraction(Area(common), Area(a) + Area(b) - Area(common));
    } else {
      forall x, y | Contains(a, x, y) ensures !Contains(b, x, y) {
      }
    }
  }

  // ---------- Overlap as a ratio of pixel counts ----------

  predicate HasIntegerCorners(b: Box) {
    && b.x1 == b.x1.Floor as real && b.y1 == b.y1.Floor as real
    && b.x2 == b.x2.Floor as real && b.y2 == b.y2.Floor as real
  }

  /** The pixels of a box are the points with integer coordinates that it contains. */
  ghost function Pixels(b: Box): (s: set<(int, int)>)
    ensures forall x: int, y: int :: (x, y) in s <==> Contains(b, x as real, y as real)
  {
    set x: int, y: int |
      b.x1.Floor <= x <= b.x2.Floor && b.y1.Floor <= y <= b.y2.Floor && Contains(b, x as real, y as real) :: (x, y)
  }

  ghost function Grid(x1: int, y1: int, x2: int, y2: int): set<(int, int)> {
    set x: int, y: int | x1 <= x <= x2 && y1 <= y <= y2 :: (x, y)
  }

  lemma {:induction false} LineSize(x: int, y1: int, y2: int)
    requires y1 <= y2 + 1
    ensures |Grid(x, y1, x, y2)| == y2 - y1 + 1
    decreases y2 - y1 + 1
  {
    if y1 == y2 + 1 {
      assert Grid(x, y1, x, y2) == {};
    } else {
      LineSize(x, y1, y2 - 1);
      assert Grid(x, y1, x, y2) == Grid(x, y1, x, y2 - 1) + {(x, y2)};
    }
  }

  lemma Distribute(n: int, h: int)
    ensures (n + 1) * h == n * h + h
  {
  }

  lemma {:induction false} GridSize(x1: int, y1: int, x2: int, y2: int)
    requires x1 <= x2 + 1 && y1 <= y2 + 1
    ensures |Grid(x1, y1, x2, y2)| == (x2 - x1 + 1) * (y2 - y1 + 1)
    decreases x2 - x1 + 1
  {
    if x1 == x2 + 1 {
      assert Grid(x1, y1, x2, y2) == {};
    } else {
      GridSize(x1, y1, x2 - 1, y2);
      LastColumn(x1, y1, x2, y2);
      Distribute(x2 - x1, y2 - y1 + 1);
    }
  }

  lemma LastColumn(x1: int, y1: int, x2: int, y2: int)
    requires x1 <= x2 && y1 <= y2 + 1
    ensures |Grid(x1, y1, x2, y2)| == |Grid(x1, y1, x2 - 1, y2)| + (y2 - y1 + 1)
  {
    LineSize(x2, y1, y2);
    assert Grid(x1, y1, x2, y2) == Grid(x1, y1, x2 - 1, y2) + Grid(x2, y1, x2, y2);
    assert Grid(x1, y1, x2 - 1, y2) !! Grid(x2, y1, x2, y2);
  }

  lemma AreaCountsPixels(b: Box)
    requires WellFormed(b) && HasIntegerCorners(b)
    ensures |Pixels(b)| as real == Area(b)
  {
    var x1, y1, x2, y2 := b.x1.Floor, b.y1.Floor, b.x2.Floor, b.y2.Floor;
    assert Pixels(b) == Grid(x1, y1, x2, y2);
    GridSize(x1, y1, x2, y2);
    assert Width(b) == (x2 - x1 + 1) as real && Height(b) == (y2 - y1 + 1) as real;
  }

  function CommonArea(a: Box, b: Box): real {
    if WellFormed(Intersection(a, b)) then Area(Intersection(a, b)) else 0.0
  }

  lemma ContainsBoth(a: Box, b: Box, x: real, y: real)
    ensures Contains(a, x, y) && Contains(b, x, y) <==> Contains(Intersection(a, b), x, y)
  {
  }

  lemma IntersectionPixels(a: Box, b: Box)
    ensures Pixels(a) * Pixels(b) == Pixels(Intersection(a, b))
    ensures !WellFormed(Intersection(a, b)) ==> Pixels(Intersection(a, b)) == {}
  {
    forall x: int, y: int
      ensures (x, y) in Pixels(a) && (x, y) in Pixels(b) <==> (x, y) in Pixels(Intersection(a, b))
    {
      ContainsBoth(a, b, x as real, y as real);
    }
    forall p | p in Pixels(Intersection(a, b)) ensures WellFormed(Intersection(a, b)) {
      assert p == (p.0, p.1);
    }
  }

  lemma IntersectionCorners(a: Box, b: Box)
    requires HasIntegerCorners(a) && HasIntegerCorners(b)
    ensures HasIntegerCorners(Intersection(a, b))
  {
  }

  lemma CommonPixels(a: Box, b: Box)
    requires WellFormed(a) && WellFormed(b) && HasIntegerCorners(a) && HasIntegerCorners(b)
    ensures |Pixels(a) * Pixels(b)| as real == CommonArea(a, b)
  {
    IntersectionPixels(a, b);
    if WellFormed(Intersection(a, b)) {
      IntersectionCorners(a, b);
      AreaCountsPixels(Intersection(a, b));
    }
  }

  /** How many pixels are in either box and in both, in terms of areas. */
  predicate CountsAreAreas(a: Box, b: Box, either: int, both: int) {
    both as real == CommonArea(a, b) && either as real == Area(a) + Area(b) - CommonArea(a, b)
  }

  predicate IouIsRatio(a: Box, b: Box, either: int, both: int)
    requires WellFormed(a) && WellFormed(b)
  {
    either > 0 && Iou(a, b) * either as real == both as real
  }

  lemma IouOfCounts(a: Box, b: Box, either: int, both: int)
    requires WellFormed(a) && WellFormed(b) && CountsAreAreas(a, b, either, both)
    ensures IouIsRatio(a, b, either, both)
  {
    ProductSign(Width(a), Height(a));
    ProductSign(Width(b), Height(b));
    if WellFormed(Intersection(a, b)) {
      IntersectionArea(a, b);
      DivTimes(CommonArea(a, b), either as real);
    }
  }

  lemma PixelCounts(a: Box, b: Box)
    requires WellFormed(a) && WellFormed(b) && HasIntegerCorners(a) && HasIntegerCorners(b)
    ensures CountsAreAreas(a, b, |Pixels(a) + Pixels(b)|, |Pixels(a) * Pixels(b)|)
  {
    AreaCountsPixels(a);
    AreaCountsPixels(b);
    CommonPixels(a, b);
  }

  lemma IouOfPixels(a: Box, b: Box)
    requires WellFormed(a) && WellFormed(b) && HasIntegerCorners(a) && HasIntegerCorners(b)
    ensures IouIsRatio(a, b, |Pixels(a) + Pixels(b)|, |Pixels(a) * Pixels(b)|)
  {
    PixelCounts(a, b);
    IouOfCounts(a, b, |Pixels(a) + Pixels(b)|, |Pixels(a) * Pixels(b)|);
  }

  /** v is the number of pixels in both boxes divided by the number of pixels in either. */
  ghost predicate IsPixelRatio(v: real, a: Box, b: Box) {
    |Pixels(a) + Pixels(b)| > 0 && v * |Pixels(a) + Pixels(b)| as real == |Pixels(a) * Pixels(b)| as real
  }

  /** The overlap times the number of pixels in either box is the number of pixels in both. */
  lemma IouCountsPixels(a: Box, b: Box)
    requires WellFormed(a) && WellFormed(b) && HasIntegerCorners(a) && HasIntegerCorners(b)
    ensures IsPixelRatio(Iou(a, b), a, b)
  {
    IouOfPixels(a, b);
  }

  /** Every row holds a well-formed box at the offset. */
  predicate BoxRows(m: Matrix, offset: nat) {
    forall i :: 0 <= i < |m| ==> offset + 4 <= |m[i]| && WellFormed(BoxAt(m[i], offset))
  }

  method BboxOverlaps(ex: Matrix, exOffset: nat, gt: Matrix, gtOffset: nat) returns (result: Matrix)
    requires BoxRows(ex, exOffset) && BoxRows(gt, gtOffset)
    ensures IsOverlapMatrix(ex, exOffset, gt, gtOffset, result)
  {
    result := [];
    for i := 0 to |ex|
      invariant |result| == i
      invariant forall k :: 0 <= k < i ==> |result[k]| == |gt| && forall j :: 0 <= j < |gt| ==>
                  result[k][j] == Iou(BoxAt(ex[k], exOffset), BoxAt(gt[j], gtOffset))
    {
      var row := [];
      for j := 0 to |gt|
        invariant |row| == j
        invariant forall k :: 0 <= k < j ==> row[k] == Iou(BoxAt(ex[i], exOffset), BoxAt(gt[k], gtOffset))
      {
        row := row + [Iou(BoxAt(ex[i], exOffset), BoxAt(gt[j], gtOffset))];
      }
      result := result + [row];
    }
  }

  ghost predicate IsOverlapMatrix(ex: Matrix, exOffset: nat, gt: Matrix, gtOffset: nat, m: Matrix)
    requires BoxRows(ex, exOffset) && BoxRows(gt, gtOffset)
  {
    |m| == |ex| && forall i :: 0 <= i < |ex| ==> |m[i]| == |gt| && forall j :: 0 <= j < |gt| ==>
      m[i][j] == Iou(BoxAt(ex[i], exOffset), BoxAt(gt[j], gtOffset))
  }

  /**
   * What holds of the overlap of two boxes holds entry by entry of an overlap matrix, and exchanging the two sides
   * transposes it.
   */
  lemma OverlapMatrixMeaning(ex: Matrix, exOffset: nat, gt: Matrix, gtOffset: nat, m: Matrix, t: Matrix, i: nat, j: nat)
    requires BoxRows(ex, exOffset) && BoxRows(gt, gtOffset) && i < |ex| && j < |gt|
    requires IsOverlapMatrix(ex, exOffset, gt, gtOffset, m) && IsOverlapMatrix(gt, gtOffset, ex, exOffset, t)
    ensures m[i][j] == t[j][i] && 0.0 <= m[i][j] <= 1.0
    ensures m[i][j] == 0.0 <==> !Overlap(BoxAt(ex[i], exOffset), BoxAt(gt[j], gtOffset))
    ensures m[i][j] == 1.0 <==> BoxAt(ex[i], exOffset) == BoxAt(gt[j], gtOffset)
    ensures HasIntegerCorners(BoxAt(ex[i], exOffset)) && HasIntegerCorners(BoxAt(gt[j], gtOffset)) ==>
              IsPixelRatio(m[i][j], BoxAt(ex[i], exOffset), BoxAt(gt[j], gtOffset))
  {
    if HasIntegerCorners(BoxAt(ex[i], exOffset)) && HasIntegerCorners(BoxAt(gt[j], gtOffset)) {
      IouCountsPixels(BoxAt(ex[i], exOffset), BoxAt(gt[j], gtOffset));
    }
    IouSymmetric(BoxAt(ex[i], exOffset), BoxAt(gt[j], gtOffset));
    IouMeaning(BoxAt(ex[i], exOffset), BoxAt(gt[j], gtOffset));
  }

  // ---------- Regression targets and their inverse ----------

  datatype Delta = Delta(dx: real, dy: real, dw: real, dh: real)

  function CenterX(b: Box): real {
    b.x1 + 0.5 * Width(b)
  }

  function CenterY(b: Box): real {
    b.y1 + 0.5 * Height(b)
  }

  function DeltaOf(log: real -> real, ex: Box, gt: Box): Delta
    requires WellFormed(ex) && WellFormed(gt)
  {
    Delta((CenterX(gt) - CenterX(ex)) / Width(ex), (CenterY(gt) - CenterY(ex)) / Height(ex),
          log(Width(gt) / Width(ex)), log(Height(gt) / Height(ex)))
  }

  /** The box whose centre is tx widths and ty heights away from that of b, with sides sx and sy times as long. */
  function Placed(b: Box, tx: real, ty: real, sx: real, sy: real): Box {
    var w, h := sx * Width(b), sy * Height(b);
    var x, y := b.x1 + 0.5 * Width(b) + tx * Width(b) - 0.5 * w, b.y1 + 0.5 * Height(b) + ty * Height(b) - 0.5 * h;
    Box(x, y, x + w - 1.0, y + h - 1.0)
  }

  lemma CancelRight(p: real, q: real, b: real)
    requires b > 0.0 && p * b == q * b
    ensures p == q
  {
    assert (q - p) * b == q * b - p * b && (p - q) * b == p * b - q * b;
    if p < q {
      ProductSign(q - p, b);
    } else if q < p {
      ProductSign(p - q, b);
    }
  }

  lemma QuotientUnique(a: real, b: real, q: real)
    requires b > 0.0 && q * b == a
    ensures a / b == q
  {
    DivTimes(a, b);
    CancelRight(a / b, q, b);
  }

  /** The targets are the offset of the centre in widths and heights, and the logarithms of the two growth factors. */
  lemma DeltaOfPlaced(log: real -> real, b: Box, tx: real, ty: real, sx: real, sy: real)
    requires WellFormed(b) && sx * Width(b) >= 1.0 && sy * Height(b) >= 1.0
    ensures WellFormed(Placed(b, tx, ty, sx, sy))
    ensures DeltaOf(log, b, Placed(b, tx, ty, sx, sy)) == Delta(tx, ty, log(sx), log(sy))
  {
    var p := Placed(b, tx, ty, sx, sy);
    QuotientUnique(CenterX(p) - CenterX(b), Width(b), tx);
    QuotientUnique(CenterY(p) - CenterY(b), Height(b), ty);
    QuotientUnique(Width(p), Width(b), sx);
    QuotientUnique(Height(p), Height(b), sy);
  }

  /** The box in an image that is enlarged kx and ky times and then shifted. */
  function Enlarged(b: Box, kx: real, ky: real, ox: real, oy: real): Box {
    Box(kx * b.x1 + ox, ky * b.y1 + oy, kx * b.x1 + ox + kx * Width(b) - 1.0, ky * b.y1 + oy + ky * Height(b) - 1.0)
  }

  lemma CancelFactor(k: real, a: real, b: real, ka: real, kb: real)
    requires k > 0.0 && b > 0.0 && ka == k * a && kb == k * b
    ensures kb > 0.0 && ka / kb == a / b
  {
    ProductSign(k, b);
    DivTimes(a, b);
    Regroup(k, a / b, b);
    QuotientUnique(ka, kb, a / b);
  }

  lemma Regroup(k: real, q: real, b: real)
    ensures q * (k * b) == k * (q * b)
  {
  }

  /** Enlarging and shifting both boxes alike leaves the targets as they are. */
  lemma EnlargingKeepsDelta(log: real -> real, ex: Box, gt: Box, kx: real, ky: real, ox: real, oy: real)
    requires WellFormed(ex) && WellFormed(gt) && kx > 0.0 && ky > 0.0
    requires WellFormed(Enlarged(ex, kx, ky, ox, oy)) && WellFormed(Enlarged(gt, kx, ky, ox, oy))
    ensures DeltaOf(log, Enlarged(ex, kx, ky, ox, oy), Enlarged(gt, kx, ky, ox, oy)) == DeltaOf(log, ex, gt)
  {
    var e, g := Enlarged(ex, kx, ky, ox, oy), Enlarged(gt, kx, ky, ox, oy);
    EnlargedSides(ex, kx, ky, ox, oy);
    EnlargedSides(gt, kx, ky, ox, oy);
    CancelFactor(kx, CenterX(gt) - CenterX(ex), Width(ex), CenterX(g) - CenterX(e), Width(e));
    CancelFactor(ky, CenterY(gt) - CenterY(ex), Height(ex), CenterY(g) - CenterY(e), Height(e));
    CancelFactor(kx, Width(gt), Width(ex), Width(g), Width(e));
    CancelFactor(ky, Height(gt), Height(ex), Height(g), Height(e));
  }

  lemma EnlargedSides(b: Box, kx: real, ky: real, ox: real, oy: real)
    ensures var e := Enlarged(b, kx, ky, ox, oy);
            && Width(e) == kx * Width(b) && Height(e) == ky * Height(b)
            && CenterX(e) == kx * CenterX(b) + ox && CenterY(e) == ky * CenterY(b) + oy
  {
  }

  function Predicted(exp: real -> real, box: Box, d: Delta): Box {
    var predCtrX, predCtrY := d.dx * Width(box) + CenterX(box), d.dy * Height(box) + CenterY(box);
    var predW, predH := exp(d.dw) * Width(box), exp(d.dh) * Height(box);
    Box(predCtrX - 0.5 * predW, predCtrY - 0.5 * predH, predCtrX + 0.5 * predW, predCtrY + 0.5 * predH)
  }

  ghost predicate ExpInvertsLog(exp: real -> real, log: real -> real) {
    forall x :: x > 0.0 ==> exp(log(x)) == x
  }

  /**
   * Applying the targets to the box they were made for gives the ground truth back, with its far corner one pixel
   * further out.
   */
  lemma TransformThenInverse(exp: real -> real, log: real -> real, ex: Box, gt: Box)
    requires ExpInvertsLog(exp, log) && WellFormed(ex) && WellFormed(gt)
    ensures Predicted(exp, ex, DeltaOf(log, ex, gt)) == Box(gt.x1, gt.y1, gt.x2 + 1.0, gt.y2 + 1.0)
  {
    DivTimes(CenterX(gt) - CenterX(ex), Width(ex));
    DivTimes(CenterY(gt) - CenterY(ex), Height(ex));
    DivTimes(Width(gt), Width(ex));
    DivTimes(Height(gt), Height(ex));
  }

  function DeltaAt(row: Row, offset: nat): Delta
    requires offset + 4 <= |row|
  {
    Delta(row[offset], row[offset + 1], row[offset + 2], row[offset + 3])
  }

  /** A row in which the four entries from offset on are replaced. */
  function WithFour(row: Row, offset: nat, a: real, b: real, c: real, d: real): (r: Row)
    requires offset + 4 <= |row|
    ensures |r| == |row| && forall k :: 0 <= k < |row| && !(offset <= k < offset + 4) ==> r[k] == row[k]
  {
    row[offset := a][offset + 1 := b][offset + 2 := c][offset + 3 := d]
  }

  /** Writes the targets into four columns of the given rows, and touches nothing else. */
  method BboxTransform(log: real -> real, exRois: Matrix, exOffset: nat, gtRois: Matrix, gtOffset: nat, target: Matrix,
        targetOffset: nat)
    returns (result: Matrix)
    requires BoxRows(exRois, exOffset) && BoxRows(gtRois, gtOffset) && |exRois| == |gtRois| == |target|
    requires forall i :: 0 <= i < |target| ==> targetOffset + 4 <= |target[i]|
    ensures |result| == |target| && forall i :: 0 <= i < |target| ==>
              && |result[i]| == |target[i]|
              && DeltaAt(result[i], targetOffset) ==
                 DeltaOf(log, BoxAt(exRois[i], exOffset), BoxAt(gtRois[i], gtOffset))
              && (var d := DeltaOf(log, BoxAt(exRois[i], exOffset), BoxAt(gtRois[i], gtOffset));
                  && result[i][targetOffset] == d.dx && result[i][targetOffset + 1] == d.dy
                  && result[i][targetOffset + 2] == d.dw && result[i][targetOffset + 3] == d.dh)
              && forall k :: 0 <= k < |target[i]| && !(targetOffset <= k < targetOffset + 4) ==>
                 result[i][k] == target[i][k]
  {
    result := target;
    for i := 0 to |exRois|
      invariant |result| == |target| && forall k :: i <= k < |target| ==> result[k] == target[k]
      invariant forall k :: 0 <= k < i ==>
                  var d := DeltaOf(log, BoxAt(exRois[k], exOffset), BoxAt(gtRois[k], gtOffset));
                  result[k] == WithFour(target[k], targetOffset, d.dx, d.dy, d.dw, d.dh)
    {
      var d := DeltaOf(log, BoxAt(exRois[i], exOffset), BoxAt(gtRois[i], gtOffset));
      result := result[i := WithFour(result[i], targetOffset, d.dx, d.dy, d.dw, d.dh)];
    }
  }

  /** Class slot j of row i of the flat delta buffer. */
  function SlotDelta(deltas: seq<real>, numClasses: nat, i: nat, j: nat): Delta
    requires j < numClasses && (i + 1) * (4 * numClasses) <= |deltas|
  {
    SlotInRow(i, 4 * numClasses, 4 * j);
    DeltaAt(deltas, i * (4 * numClasses) + 4 * j)
  }

  lemma SlotInRow(i: nat, n: nat, k: nat)
    requires k + 4 <= n
    ensures 0 <= i * n && i * n + k + 4 <= (i + 1) * n
  {
  }

  lemma RowInBuffer(i: nat, m: nat, n: nat)
    requires i < m
    ensures (i + 1) * n <= m * n
  {
    assert (m - (i + 1)) * n >= 0;
  }

  /** The slots follow each other: that of row i and class j is number i * numClasses + j. */
  lemma SlotIsNumbered(deltas: seq<real>, numClasses: nat, i: nat, j: nat)
    requires j < numClasses && (i + 1) * (4 * numClasses) <= |deltas|
    ensures 0 <= 4 * (i * numClasses + j) <= |deltas| - 4
    ensures SlotDelta(deltas, numClasses, i, j) == DeltaAt(deltas, 4 * (i * numClasses + j))
  {
    assert 4 * (i * numClasses + j) == i * (4 * numClasses) + 4 * j;
    SlotInRow(i, 4 * numClasses, 4 * j);
  }

  predicate PredictedRow(exp: real -> real, box: Box, deltas: seq<real>, numClasses: nat, i: nat, row: Row) {
    (i + 1) * (4 * numClasses) <= |deltas| && |row| == 4 * numClasses &&
    forall j :: 0 <= j < numClasses ==> BoxAt(row, 4 * j) == Predicted(exp, box, SlotDelta(deltas, numClasses, i, j))
  }

  method PredictRow(exp: real -> real, box: Box, deltas: seq<real>, numClasses: nat, i: nat) returns (row: Row)
    requires (i + 1) * (4 * numClasses) <= |deltas|
    ensures PredictedRow(exp, box, deltas, numClasses, i, row)
  {
    row := seq(4 * numClasses, k => 0.0);
    for j := 0 to numClasses
      invariant |row| == 4 * numClasses
      invariant forall k :: 0 <= k < j ==> BoxAt(row, 4 * k) == Predicted(exp, box, SlotDelta(deltas, numClasses, i, k))
    {
      var p := Predicted(exp, box, SlotDelta(deltas, numClasses, i, j));
      row := WithFour(row, 4 * j, p.x1, p.y1, p.x2, p.y2);
    }
  }

  /** One predicted box per row and class. */
  method BboxTransformInv(exp: real -> real, boxes: Matrix, deltas: seq<real>, numClasses: nat) returns (result: Matrix)
    requires forall i :: 0 <= i < |boxes| ==> |boxes[i]| == 4
    requires |deltas| == |boxes| * (4 * numClasses)
    ensures |result| == |boxes|
    ensures forall i :: 0 <= i < |boxes| ==> PredictedRow(exp, BoxAt(boxes[i], 0), deltas, numClasses, i, result[i])
  {
    result := [];
    for i := 0 to |boxes|
      invariant |result| == i
      invariant forall k :: 0 <= k < i ==> PredictedRow(exp, BoxAt(boxes[k], 0), deltas, numClasses, k, result[k])
    {
      RowInBuffer(i, |boxes|, 4 * numClasses);
      var row := PredictRow(exp, BoxAt(boxes[i], 0), deltas, numClasses, i);
      result := result + [row];
    }
  }

  /**
   * Wherever a class slot holds the targets for a ground truth, the predicted box is that ground truth, grown by the
   * one pixel.
   */
  lemma PredictionRecoversGroundTruth(exp: real -> real, log: real -> real, box: Box, gt: Box, deltas: seq<real>,
        numClasses: nat, i: nat, j: nat, row: Row)
    requires ExpInvertsLog(exp, log) && WellFormed(box) && WellFormed(gt) && j < numClasses
    requires PredictedRow(exp, box, deltas, numClasses, i, row)
    requires 0 <= 4 * (i * numClasses + j) <= |deltas| - 4
    requires DeltaAt(deltas, 4 * (i * numClasses + j)) == DeltaOf(log, box, gt)
    ensures BoxAt(row, 4 * j) == Box(gt.x1, gt.y1, gt.x2 + 1.0, gt.y2 + 1.0)
  {
    SlotIsNumbered(deltas, numClasses, i, j);
    TransformThenInverse(exp, log, box, gt);
  }

  // ---------- Clipping ----------

  /** One coordinate, kept within 0 and size - 1. */
  function Clip(v: real, size: real): real {
    Max(Min(v, size - 1.0), 0.0)
  }

  function Clipped(b: Box, width: real, height: real): Box {
    Box(Clip(b.x1, width), Clip(b.y1, height), Clip(b.x2, width), Clip(b.y2, height))
  }

  predicate InImage(b: Box, width: real, height: real) {
    0.0 <= b.x1 <= width - 1.0 && 0.0 <= b.x2 <= width - 1.0 && 0.0 <= b.y1 <= height - 1.0 &&
      0.0 <= b.y2 <= height - 1.0
  }

  /**
   * Clipping lands in the image, changes exactly the boxes outside it, so never again the second time, and keeps
   * corners in order.
   */
  lemma ClipMeaning(b: Box, width: real, height: real)
    requires width >= 1.0 && height >= 1.0
    ensures var c := Clipped(b, width, height);
            && InImage(c, width, height) && (c == b <==> InImage(b, width, height)) && Clipped(c, width, height) == c
            && (WellFormed(b) ==> WellFormed(c))
  {
  }

  lemma SquareOrder(a: real, b: real)
    requires 0.0 <= a <= b || b <= a <= 0.0
    ensures a * a <= b * b
  {
    if 0.0 <= a <= b {
      ProductSign(b - a, b + a);
    } else {
      ProductSign(a - b, -b - a);
    }
    assert b * b - a * a == (b - a) * (b + a);
  }

  /** The clipped point is the nearest one of the image to the given point, in each coordinate. */
  lemma ClipIsNearest(v: real, size: real, w: real)
    requires size >= 1.0 && 0.0 <= w <= size - 1.0
    ensures (v - Clip(v, size)) * (v - Clip(v, size)) <= (v - w) * (v - w)
  {
    SquareOrder(v - Clip(v, size), v - w);
  }

  /** Clips the boxes of every row in place; how many there are in a row is read off the first row. */
  method ClipBoxes(boxes: Matrix, imShape: Row) returns (result: Matrix)
    requires |imShape| >= 2 && forall i :: 0 <= i < |boxes| ==> |boxes[i]| == |boxes[0]|
    ensures |result| == |boxes|
    ensures forall i :: 0 <= i < |boxes| ==>
              && |result[i]| == |boxes[i]|
              && (forall j :: 0 <= j < |boxes[0]| / 4 ==>
                    BoxAt(result[i], 4 * j) == Clipped(BoxAt(boxes[i], 4 * j), imShape[1], imShape[0]))
              && (forall k :: |boxes[0]| / 4 * 4 <= k < |boxes[i]| ==> result[i][k] == boxes[i][k])
  {
    result := boxes;
    if |boxes| < 1 {
      return;
    }
    var numClasses := |boxes[0]| / 4;
    for i := 0 to |boxes|
      invariant |result| == |boxes| && forall k :: i <= k < |boxes| ==> result[k] == boxes[k]
      invariant forall m :: 0 <= m < i ==>
                  && |result[m]| == |boxes[m]|
                  && (forall j :: 0 <= j < numClasses ==>
                        BoxAt(result[m], 4 * j) == Clipped(BoxAt(boxes[m], 4 * j), imShape[1], imShape[0]))
                  && (forall k :: numClasses * 4 <= k < |boxes[m]| ==> result[m][k] == boxes[m][k])
    {
      var row := boxes[i];
      for j := 0 to numClasses
        invariant |row| == |boxes[i]| && forall k :: 4 * j <= k < |row| ==> row[k] == boxes[i][k]
        invariant forall k :: 0 <= k < j ==>
                    BoxAt(row, 4 * k) == Clipped(BoxAt(boxes[i], 4 * k), imShape[1], imShape[0])
      {
        var c := Clipped(BoxAt(row, 4 * j), imShape[1], imShape[0]);
        row := WithFour(row, 4 * j, c.x1, c.y1, c.x2, c.y2);
      }
      result := result[i := row];
    }
  }
}
