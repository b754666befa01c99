/** All anchors: the base anchors at every position of the feature map. */
module AnchorGrid {
  import opened BoxMath
  import opened Modular

  function Shifted(anchor: Row, shift: Row): Row
    requires |anchor| == 4 && |shift| == 4
  {
    [anchor[0] + shift[0], anchor[1] + shift[1], anchor[2] + shift[2], anchor[3] + shift[3]]
  }

  /** The shift of the cell in row i and column j. */
  function ShiftAt(i: nat, j: nat, stride: nat): Row {
    var x, y := (j * stride) as real, (i * stride) as real;
    [x, y, x, y]
  }

  method EnumerateShifts(height: nat, width: nat, stride: nat) returns (shifts: Matrix)
    ensures |shifts| == height * width && ShiftsDone(shifts, height, width, stride, height, 0)
  {
    shifts := seq(height * width, k => [0.0, 0.0, 0.0, 0.0]);
    ghost var n := |shifts|;
    for i := 0 to height
      invariant |shifts| == n && ShiftsDone(shifts, height, width, stride, i, 0)
    {
      for j := 0 to width
        invariant |shifts| == n && ShiftsDone(shifts, height, width, stride, i, j)
      {
        CellNumber(i, j, height, width);
        OneShiftMore(shifts, height, width, stride, i, j);
        var index := Cell(i, j, width);
        shifts := shifts[index := ShiftAt(i, j, stride)];
      }
    }
  }

  function Cell(i: nat, j: nat, width: nat): int {
    i * width + j
  }

  /** The cells before (rows, cols), row by row, are filled in. */
  ghost predicate ShiftsDone(shifts: Matrix, height: nat, width: nat, stride: nat, rows: nat, cols: nat) {
    forall i: nat, j: nat {:trigger Cell(i, j, width)} ::
      i < height && j < width && (i < rows || (i == rows && j < cols)) ==>
        0 <= Cell(i, j, width) < |shifts| && shifts[Cell(i, j, width)] == ShiftAt(i, j, stride)
  }

  lemma CellNumber(i: nat, j: nat, height: nat, width: nat)
    requires i < height && j < width
    ensures 0 <= Cell(i, j, width) < height * width
    ensures Cell(i, j, width) / width == i && Cell(i, j, width) % width == j
  {
    Product(height - 1 - i, width);
    assert height * width == i * width + width + (height - 1 - i) * width;
    DivModUnique(i * width + j, width, i, j);
  }

  lemma OneShiftMore(before: Matrix, height: nat, width: nat, stride: nat, i: nat, j: nat)
    requires i < height && j < width && |before| == height * width && 0 <= Cell(i, j, width) < |before|
    requires ShiftsDone(before, height, width, stride, i, j)
    ensures ShiftsDone(before[Cell(i, j, width) := ShiftAt(i, j, stride)], height, width, stride, i, j + 1)
  {
    CellNumber(i, j, height, width);
    forall k: nat, l: nat | k < height && l < width && (k < i || (k == i && l < j))
      ensures Cell(k, l, width) != Cell(i, j, width)
    {
      CellNumber(k, l, height, width);
    }
  }

  /** Anchor number i * A + j is base anchor j moved by shift i. */
  method ShiftAnchors(base: Matrix, shifts: Matrix) returns (anchors: Matrix)
    requires (forall j :: 0 <= j < |base| ==> |base[j]| == 4) && forall i :: 0 <= i < |shifts| ==> |shifts[i]| == 4
    ensures |anchors| == |shifts| * |base|
    ensures forall k :: 0 <= k < |anchors| ==>
              base != [] && k / |base| < |shifts| && anchors[k] == Shifted(base[k % |base|], shifts[k / |base|])
  {
    anchors := [];
    for i := 0 to |shifts|
      invariant |anchors| == i * |base|
      invariant forall k :: 0 <= k < |anchors| ==> AnchorFrom(base, shifts, k, anchors[k])
    {
      ghost var first := |anchors|;
      for j := 0 to |base|
        invariant |anchors| == first + j
        invariant forall k :: 0 <= k < |anchors| ==> AnchorFrom(base, shifts, k, anchors[k])
      {
        CellNumber(i, j, |shifts|, |base|);
        assert Cell(i, j, |base|) == first + j;
        anchors := anchors + [Shifted(base[j], shifts[i])];
      }
      NextMultiple(i, |base|);
    }
  }

  predicate AnchorFrom(base: Matrix, shifts: Matrix, k: nat, anchor: Row)
    requires (forall j :: 0 <= j < |base| ==> |base[j]| == 4) && forall i :: 0 <= i < |shifts| ==> |shifts[i]| == 4
  {
    base != [] && k / |base| < |shifts| && anchor == Shifted(base[k % |base|], shifts[k / |base|])
  }

  /** A shifted anchor keeps its shape, and every base anchor occurs at every cell. */
  lemma ShiftKeepsShape(anchor: Row, i: nat, j: nat, stride: nat)
    requires |anchor| == 4 && WellFormed(BoxAt(anchor, 0))
    ensures var b := BoxAt(Shifted(anchor, ShiftAt(i, j, stride)), 0);
            && WellFormed(b) && Width(b) == Width(BoxAt(anchor, 0)) && Height(b) == Height(BoxAt(anchor, 0))
            && CenterX(b) == CenterX(BoxAt(anchor, 0)) + (j * stride) as real &&
               CenterY(b) == CenterY(BoxAt(anchor, 0)) + (i * stride) as real
  {
  }
}
