/** The transform of an image into a channel-first float buffer: crop window, mirror, mean and scale. */
module ImageTransform {
  import opened Bytes
  import opened Modular
  import opened ChannelLayout
  import opened Sequences

  /** Rows of interleaved channels, as OpenCV holds an image. */
  type Image = seq<seq<byte>>

  predicate HasSize(img: Image, rows: nat, cols: nat, channels: nat) {
    |img| == rows && forall h :: 0 <= h < rows ==> |img[h]| == cols * channels
  }

  /**
   * The shape of the target, where the window starts, and whether columns are reversed. mean is empty or has one value
   * a channel.
   */
  datatype Param = Param(
    channels: nat, height: nat, width: nat, hoff: nat, woff: nat, mirror: bool, mean: seq<real>, scale: real)

  predicate Fits(img: Image, rows: nat, cols: nat, t: Param) {
    && HasSize(img, rows, cols, t.channels) && t.hoff + t.height <= rows && t.woff + t.width <= cols
    && (t.mean == [] || |t.mean| == t.channels)
  }

  function Pixels(t: Param): nat {
    t.height * t.width
  }

  function Affine(t: Param, c: nat, pixel: byte): real
    requires t.mean == [] || c < |t.mean|
  {
    if t.mean != [] then (pixel as real - t.mean[c]) * t.scale else pixel as real * t.scale
  }

  lemma InRow(w: nat, c: nat, cols: nat, channels: nat)
    requires w < cols && c < channels
    ensures w * channels + c < cols * channels
  {
    Product(cols - 1 - w, channels);
    assert cols * channels == (w + 1) * channels + (cols - 1 - w) * channels;
    NextMultiple(w, channels);
  }

  /** The number of row and column of element k of the channel-last window. */
  lemma Coordinates(t: Param, k: nat)
    requires k < t.channels * Pixels(t)
    ensures t.channels > 0 && t.width > 0
    ensures var q := k / t.channels; q < Pixels(t) && 0 <= q / t.width < t.height && 0 <= q % t.width < t.width
    ensures 0 <= k % t.channels < t.channels
  {
    IndexBound(k % t.channels, k / t.channels, t.channels, Pixels(t), k);
    var q := k / t.channels;
    Product(t.width, t.height);
    IndexBound(q % t.width, q / t.width, t.width, t.height, q);
  }

  /** Channel c of the pixel in row h and column w of the window. */
  function PixelAt(img: Image, rows: nat, cols: nat, t: Param, h: nat, w: nat, c: nat): byte
    requires Fits(img, rows, cols, t) && h < t.height && w < t.width && c < t.channels
  {
    InRow(t.woff + w, c, cols, t.channels);
    Product(t.woff + w, t.channels);
    img[t.hoff + h][(t.woff + w) * t.channels + c]
  }

  function WindowAt(img: Image, rows: nat, cols: nat, t: Param, k: nat): byte
    requires Fits(img, rows, cols, t) && k < t.channels * Pixels(t)
  {
    Coordinates(t, k);
    PixelAt(img, rows, cols, t, k / t.channels / t.width, k / t.channels % t.width, k % t.channels)
  }

  /** Window selection: the cropped image as a channel-last buffer. */
  function Window(img: Image, rows: nat, cols: nat, t: Param): (win: seq<byte>)
    requires Fits(img, rows, cols, t)
    ensures |win| == t.channels * Pixels(t)
  {
    seq(t.channels * Pixels(t), k requires 0 <= k < t.channels * Pixels(t) => WindowAt(img, rows, cols, t, k))
  }

  /** The same element in the column counted from the other side. */
  function MirrorIndex(t: Param, k: nat): (m: nat)
    requires k < t.channels * Pixels(t)
    ensures m < t.channels * Pixels(t)
  {
    Coordinates(t, k);
    var q := k / t.channels;
    MirrorInRange(t, k, q, q % t.width);
    (q - q % t.width + (t.width - 1 - q % t.width)) * t.channels + k % t.channels
  }

  lemma MirrorInRange(t: Param, k: nat, q: nat, x: nat)
    requires k < t.channels * Pixels(t) && t.channels > 0 && t.width > 0 && q == k / t.channels && x == q % t.width
    ensures var q' := q - x + (t.width - 1 - x);
            && 0 <= q' < Pixels(t) && q' / t.width == q / t.width && q' % t.width == t.width - 1 - x
            && 0 <= q' * t.channels + k % t.channels < t.channels * Pixels(t)
            && (q' * t.channels + k % t.channels) / t.channels == q' &&
               (q' * t.channels + k % t.channels) % t.channels == k % t.channels
  {
    Coordinates(t, k);
    var q' := q - x + (t.width - 1 - x);
    DivModUnique(q', t.width, q / t.width, t.width - 1 - x);
    InRow(q / t.width, t.width - 1 - x, t.height, t.width);
    InRow(q', k % t.channels, Pixels(t), t.channels);
    Product(Pixels(t), t.channels);
    DivModUnique(q' * t.channels + k % t.channels, t.channels, q', k % t.channels);
  }

  lemma MirrorInvolution(t: Param, k: nat)
    requires k < t.channels * Pixels(t)
    ensures MirrorIndex(t, MirrorIndex(t, k)) == k && MirrorIndex(t, k) % t.channels == k % t.channels
  {
    Coordinates(t, k);
    var q := k / t.channels;
    MirrorInRange(t, k, q, q % t.width);
    var m := MirrorIndex(t, k);
    Coordinates(t, m);
    assert m / t.channels == q - q % t.width + (t.width - 1 - q % t.width);
    assert m / t.channels % t.width == t.width - 1 - q % t.width;
    assert k == q * t.channels + k % t.channels;
  }

  /** Column reversal. */
  function Mirrored(t: Param, win: seq<byte>): (m: seq<byte>)
    requires |win| == t.channels * Pixels(t)
    ensures |m| == |win|
  {
    if t.mirror then seq(|win|, k requires 0 <= k < |win| => win[MirrorIndex(t, k)]) else win
  }

  /**
   * The whole transform as a composition: window, optional reversal, channel-first order, and one affine map a channel.
   */
  function Transformed(img: Image, rows: nat, cols: nat, t: Param): (out: seq<real>)
    requires Fits(img, rows, cols, t)
    ensures |out| == t.channels * Pixels(t)
  {
    var chw := AsChw(t.channels, Pixels(t), Mirrored(t, Window(img, rows, cols, t)));
    seq(|chw|, j requires 0 <= j < |chw| =>
      IndexBound(j % Pixels(t), j / Pixels(t), Pixels(t), t.channels, j);
      Affine(t, j / Pixels(t), chw[j]))
  }

  /** Where the loop writes element k of the window. */
  function Target(t: Param, k: nat): (j: nat)
    requires k < t.channels * Pixels(t)
    ensures j < t.channels * Pixels(t)
  {
    ToChw(t.channels, Pixels(t), if t.mirror then MirrorIndex(t, k) else k)
  }

  /** The element of the window that ends up in cell j. */
  function Origin(t: Param, j: nat): (k: nat)
    requires j < t.channels * Pixels(t)
    ensures k < t.channels * Pixels(t)
  {
    var k := ToHwc(t.channels, Pixels(t), j);
    if t.mirror then MirrorIndex(t, k) else k
  }

  /** Every cell is written exactly once. */
  lemma TargetBijective(t: Param, k: nat)
    requires k < t.channels * Pixels(t)
    ensures Origin(t, Target(t, k)) == k && Target(t, Origin(t, k)) == k
  {
    MirrorInvolution(t, k);
    IndexMapsInverse(t.channels, Pixels(t), k);
    IndexMapsInverse(t.channels, Pixels(t), if t.mirror then MirrorIndex(t, k) else k);
    MirrorInvolution(t, ToHwc(t.channels, Pixels(t), k));
  }

  lemma OriginChannel(t: Param, j: nat)
    requires j < t.channels * Pixels(t)
    ensures Pixels(t) > 0 && t.channels > 0 && Origin(t, j) % t.channels == j / Pixels(t)
  {
    var p, k := Pixels(t), ToHwc(t.channels, Pixels(t), j);
    IndexBound(j % p, j / p, p, t.channels, j);
    DivModUnique(k, t.channels, j % p, j / p);
    MirrorInvolution(t, k);
  }

  /** The first n of the given values have been written to their cells, from position at on. */
  ghost predicate Written(target: seq<nat>, value: seq<real>, data: seq<real>, at: nat, n: nat)
    requires |target| == |value|
  {
    forall k :: 0 <= k < n && k < |target| ==> at + target[k] < |data| && data[at + target[k]] == value[k]
  }

  ghost predicate SameOutside(before: seq<real>, after: seq<real>, at: nat, n: nat) {
    at + n <= |before| == |after| && before[..at] == after[..at] && before[at + n..] == after[at + n..]
  }

  lemma WriteOne(target: seq<nat>, value: seq<real>, data: seq<real>, at: nat, n: nat, size: nat, before: seq<real>)
    requires |target| == |value| && n < |target| && Distinct(target) && target[n] < size
    requires Written(target, value, data, at, n) && SameOutside(before, data, at, size)
    ensures at + target[n] < |data|
    ensures var data' := data[at + target[n] := value[n]];
            Written(target, value, data', at, n + 1) && SameOutside(before, data', at, size)
  {
  }

  /** The position of an element in the order in which the loops visit the window. */
  function Number(t: Param, h: nat, w: nat, c: nat): int {
    (h * t.width + w) * t.channels + c
  }

  /** target and value say what the loop nest writes at each step. */
  ghost predicate Described(img: Image, rows: nat, cols: nat, t: Param, target: seq<nat>, value: seq<real>)
    requires Fits(img, rows, cols, t)
  {
    && |target| == |value| == t.channels * Pixels(t) && Distinct(target)
    && (forall k :: 0 <= k < |target| ==> target[k] < |target|)
    && (forall h: nat, w: nat, c: nat {:trigger Number(t, h, w, c)} :: h < t.height && w < t.width && c < t.channels ==>
          && 0 <= Number(t, h, w, c) < |target|
          && target[Number(t, h, w, c)] == (c * t.height + h) * t.width + (if t.mirror then t.width - 1 - w else w)
          && value[Number(t, h, w, c)] == Affine(t, c, PixelAt(img, rows, cols, t, h, w, c)))
  }

  function Targets(t: Param): (target: seq<nat>)
    ensures |target| == t.channels * Pixels(t)
  {
    seq(t.channels * Pixels(t), k requires 0 <= k < t.channels * Pixels(t) => Target(t, k))
  }

  function Values(img: Image, rows: nat, cols: nat, t: Param): (value: seq<real>)
    requires Fits(img, rows, cols, t)
    ensures |value| == t.channels * Pixels(t)
  {
    seq(t.channels * Pixels(t), k requires 0 <= k < t.channels * Pixels(t) => ValueAt(img, rows, cols, t, k))
  }

  function ValueAt(img: Image, rows: nat, cols: nat, t: Param, k: nat): real
    requires Fits(img, rows, cols, t) && k < t.channels * Pixels(t)
  {
    Coordinates(t, k);
    Affine(t, k % t.channels, WindowAt(img, rows, cols, t, k))
  }

  lemma QuotientOfSum(k: int, n: nat, q: nat, r: nat)
    requires r < n && k == q * n + r
    ensures k / n == q && k % n == r
  {
    DivModUnique(k, n, q, r);
  }

  lemma NumberParts(t: Param, h: nat, w: nat, c: nat)
    requires h < t.height && w < t.width && c < t.channels
    ensures var k := Number(t, h, w, c);
            && 0 <= k < t.channels * Pixels(t) && k % t.channels == c && k / t.channels == h * t.width + w
            && k / t.channels / t.width == h && k / t.channels % t.width == w
  {
    var q: nat := h * t.width + w;
    ClosedFormulas(t.channels, t.height, t.width, h, w, c);
    QuotientOfSum(q, t.width, h, w);
    QuotientOfSum(Number(t, h, w, c), t.channels, q, c);
  }

  lemma MirrorOfNumber(t: Param, h: nat, w: nat, c: nat)
    requires h < t.height && w < t.width && c < t.channels
    ensures 0 <= Number(t, h, w, c) < t.channels * Pixels(t)
    ensures MirrorIndex(t, Number(t, h, w, c)) == Number(t, h, t.width - 1 - w, c)
  {
    NumberParts(t, h, w, c);
    assert h * t.width + w - w + (t.width - 1 - w) == h * t.width + (t.width - 1 - w);
  }

  lemma ChwOfNumber(t: Param, h: nat, w: nat, c: nat)
    requires h < t.height && w < t.width && c < t.channels
    ensures 0 <= Number(t, h, w, c) < t.channels * Pixels(t)
    ensures ToChw(t.channels, Pixels(t), Number(t, h, w, c)) == (c * t.height + h) * t.width + w
  {
    ClosedFormulas(t.channels, t.height, t.width, h, w, c);
  }

  lemma TargetOfNumber(t: Param, h: nat, w: nat, c: nat)
    requires h < t.height && w < t.width && c < t.channels
    ensures 0 <= Number(t, h, w, c) < t.channels * Pixels(t)
    ensures Target(t, Number(t, h, w, c)) == (c * t.height + h) * t.width + if t.mirror then t.width - 1 - w else w
  {
    MirrorOfNumber(t, h, w, c);
    ChwOfNumber(t, h, if t.mirror then t.width - 1 - w else w, c);
  }

  lemma TargetsAndValues(img: Image, rows: nat, cols: nat, t: Param)
    requires Fits(img, rows, cols, t)
    ensures Described(img, rows, cols, t, Targets(t), Values(img, rows, cols, t))
  {
    forall k, l | 0 <= k < l < t.channels * Pixels(t) ensures Target(t, k) != Target(t, l) {
      TargetBijective(t, k);
      TargetBijective(t, l);
    }
    forall h: nat, w: nat, c: nat | h < t.height && w < t.width && c < t.channels
      ensures && 0 <= Number(t, h, w, c) < t.channels * Pixels(t)
              && Target(t, Number(t, h, w, c)) ==
                 (c * t.height + h) * t.width + (if t.mirror then t.width - 1 - w else w)
              && ValueAt(img, rows, cols, t, Number(t, h, w, c)) == Affine(t, c, PixelAt(img, rows, cols, t, h, w, c))
    {
      NumberParts(t, h, w, c);
      TargetOfNumber(t, h, w, c);
    }
  }

  lemma TransformedAt(img: Image, rows: nat, cols: nat, t: Param, j: nat)
    requires Fits(img, rows, cols, t) && j < t.channels * Pixels(t)
    ensures Transformed(img, rows, cols, t)[j] == ValueAt(img, rows, cols, t, Origin(t, j))
  {
    OriginChannel(t, j);
  }

  lemma TransformedAtTarget(img: Image, rows: nat, cols: nat, t: Param, k: nat)
    requires Fits(img, rows, cols, t) && k < t.channels * Pixels(t)
    ensures Transformed(img, rows, cols, t)[Target(t, k)] == ValueAt(img, rows, cols, t, k)
  {
    TargetBijective(t, k);
    TransformedAt(img, rows, cols, t, Target(t, k));
  }

  lemma ValueOfNumber(img: Image, rows: nat, cols: nat, t: Param, h: nat, w: nat, c: nat)
    requires Fits(img, rows, cols, t) && h < t.height && w < t.width && c < t.channels
    ensures 0 <= Number(t, h, w, c) < t.channels * Pixels(t)
    ensures ValueAt(img, rows, cols, t, Number(t, h, w, c)) == Affine(t, c, PixelAt(img, rows, cols, t, h, w, c))
  {
    NumberParts(t, h, w, c);
  }

  lemma CellOfPixel(img: Image, rows: nat, cols: nat, t: Param, h: nat, w: nat, c: nat, i: int)
    requires Fits(img, rows, cols, t) && h < t.height && w < t.width && c < t.channels
    requires i == (t.woff + w) * t.channels + c
    ensures 0 <= i < |img[t.hoff + h]| && PixelAt(img, rows, cols, t, h, w, c) == img[t.hoff + h][i]
  {
    InRow(t.woff + w, c, cols, t.channels);
    Product(t.woff + w, t.channels);
  }

  lemma TransformedAtNumber(img: Image, rows: nat, cols: nat, t: Param, h: nat, w: nat, c: nat, j: int)
    requires Fits(img, rows, cols, t) && h < t.height && w < t.width && c < t.channels
    requires j == (c * t.height + h) * t.width + if t.mirror then t.width - 1 - w else w
    ensures 0 <= j < |Transformed(img, rows, cols, t)|
    ensures Transformed(img, rows, cols, t)[j] == Affine(t, c, PixelAt(img, rows, cols, t, h, w, c))
  {
    TargetOfNumber(t, h, w, c);
    TransformedAtTarget(img, rows, cols, t, Number(t, h, w, c));
    ValueOfNumber(img, rows, cols, t, h, w, c);
  }

  /** v is the pixel less the mean of its channel, times the scale. */
  predicate IsNormalized(t: Param, c: nat, pixel: byte, v: real)
    requires t.mean == [] || c < |t.mean|
  {
    v == (pixel as real - if t.mean == [] then 0.0 else t.mean[c]) * t.scale
  }

  lemma AffineNormalizes(t: Param, c: nat, pixel: byte)
    requires t.mean == [] || c < |t.mean|
    ensures IsNormalized(t, c, pixel, Affine(t, c, pixel))
  {
  }

  lemma CellIsNormalized(img: Image, rows: nat, cols: nat, t: Param, h: nat, w: nat, c: nat, j: int, i: int)
    requires Fits(img, rows, cols, t) && h < t.height && w < t.width && c < t.channels
    requires j == (c * t.height + h) * t.width + if t.mirror then t.width - 1 - w else w
    requires i == (t.woff + w) * t.channels + c
    ensures 0 <= j < |Transformed(img, rows, cols, t)| && 0 <= i < |img[t.hoff + h]|
    ensures IsNormalized(t, c, img[t.hoff + h][i], Transformed(img, rows, cols, t)[j])
  {
    TransformedAtNumber(img, rows, cols, t, h, w, c, j);
    CellOfPixel(img, rows, cols, t, h, w, c, i);
    AffineNormalizes(t, c, img[t.hoff + h][i]);
  }

  /**
   * The value of every cell from the image itself: the pixel in row h and column w of the window, at position i of its
   * row of the image, goes to row h of channel c and to column w, or to the column counted from the other side if
   * mirrored; what is written there is the pixel less the channel's mean, times the scale.
   */
  lemma TransformedCell(img: Image, rows: nat, cols: nat, t: Param, h: nat, w: nat, c: nat, j: int, i: int)
    requires Fits(img, rows, cols, t) && h < t.height && w < t.width && c < t.channels
    requires j == (c * t.height + h) * t.width + if t.mirror then t.width - 1 - w else w
    requires i == (t.woff + w) * t.channels + c
    ensures 0 <= j < |Transformed(img, rows, cols, t)| && 0 <= i < |img[t.hoff + h]|
    ensures Transformed(img, rows, cols, t)[j] ==
            (img[t.hoff + h][i] as real - if t.mean == [] then 0.0 else t.mean[c]) * t.scale
  {
    CellIsNormalized(img, rows, cols, t, h, w, c, j, i);
  }

  lemma AllWritten(img: Image, rows: nat, cols: nat, t: Param, data: seq<real>, at: nat)
    requires Fits(img, rows, cols, t) && at + t.channels * Pixels(t) <= |data|
    requires Written(Targets(t), Values(img, rows, cols, t), data, at, t.channels * Pixels(t))
    ensures data[at..at + t.channels * Pixels(t)] == Transformed(img, rows, cols, t)
  {
    forall j | 0 <= j < t.channels * Pixels(t) ensures data[at + j] == Transformed(img, rows, cols, t)[j] {
      TargetBijective(t, j);
      assert Targets(t)[Origin(t, j)] == j;
      assert data[at + j] == Values(img, rows, cols, t)[Origin(t, j)];
      TransformedAt(img, rows, cols, t, j);
    }
  }

  lemma StepOfLoops(img: Image, rows: nat, cols: nat, t: Param, target: seq<nat>, value: seq<real>, h: nat, w: nat,
        c: nat, k: nat)
    requires Fits(img, rows, cols, t) && Described(img, rows, cols, t, target, value)
    requires h < t.height && w < t.width && c < t.channels && k == (h * t.width + w) * t.channels + c
    ensures k < |target| && target[k] == (c * t.height + h) * t.width + (if t.mirror then t.width - 1 - w else w)
    ensures target[k] < |target| && value[k] == Affine(t, c, PixelAt(img, rows, cols, t, h, w, c))
  {
    assert Number(t, h, w, c) == k;
  }

  /** The innermost loop: the channels of one pixel. */
  method TransformPixel(img: Image, rows: nat, cols: nat, t: Param, data: array<real>, at: nat, h: nat, w: nat,
        imgIndex0: nat, ghost first: nat, ghost before: seq<real>, ghost target: seq<nat>, ghost value: seq<real>)
    returns (imgIndex: nat)
    requires Fits(img, rows, cols, t) && Described(img, rows, cols, t, target, value) && at + |target| <= data.Length
    requires h < t.height && w < t.width && first == (h * t.width + w) * t.channels && imgIndex0 == w * t.channels
    requires Written(target, value, data[..], at, first) && SameOutside(before, data[..], at, |target|)
    modifies data
    ensures imgIndex == imgIndex0 + t.channels
    ensures Written(target, value, data[..], at, first + t.channels) && SameOutside(before, data[..], at, |target|)
  {
    imgIndex := imgIndex0;
    var widx := if t.mirror then t.width - 1 - w else w;
    var start := t.woff * t.channels;
    for c := 0 to t.channels
      invariant imgIndex == imgIndex0 + c
      invariant Written(target, value, data[..], at, first + c) && SameOutside(before, data[..], at, |target|)
    {
      StepOfLoops(img, rows, cols, t, target, value, h, w, c, first + c);
      PixelInRow(img, rows, cols, t, h, w, c, start + imgIndex);
      var topIndex := (c * t.height + h) * t.width + widx;
      var pixel := img[t.hoff + h][start + imgIndex];
      imgIndex := imgIndex + 1;
      var v := Affine(t, c, pixel);
      WriteOne(target, value, data[..], at, first + c, |target|, before);
      ghost var next := data[..][at + topIndex := v];
      data[at + topIndex] := v;
      assert data[..] == next;
    }
  }

  lemma PixelInRow(img: Image, rows: nat, cols: nat, t: Param, h: nat, w: nat, c: nat, i: nat)
    requires Fits(img, rows, cols, t) && h < t.height && w < t.width && c < t.channels
    requires i == t.woff * t.channels + (w * t.channels + c)
    ensures i < |img[t.hoff + h]| && img[t.hoff + h][i] == PixelAt(img, rows, cols, t, h, w, c)
  {
    InRow(t.woff + w, c, cols, t.channels);
    assert i == (t.woff + w) * t.channels + c;
  }

  lemma ReplacedPart(before: seq<real>, after: seq<real>, at: nat, n: nat)
    requires SameOutside(before, after, at, n)
    ensures after == before[..at] + after[at..at + n] + before[at + n..]
  {
    assert after == after[..at] + after[at..at + n] + after[at + n..];
  }

  /** The loop nest over the cropped image; row h of the crop is row hoff + h of the image, from column woff on. */
  method Transform(img: Image, rows: nat, cols: nat, t: Param, data: array<real>, at: nat)
    requires Fits(img, rows, cols, t) && at + t.channels * Pixels(t) <= data.Length
    modifies data
    ensures data[..] == old(data[..at]) + Transformed(img, rows, cols, t) + old(data[at + t.channels * Pixels(t)..])
  {
    TargetsAndValues(img, rows, cols, t);
    TransformLoops(img, rows, cols, t, data, at, Targets(t), Values(img, rows, cols, t));
    AllWritten(img, rows, cols, t, data[..], at);
    ReplacedPart(old(data[..]), data[..], at, t.channels * Pixels(t));
  }

  /** Where a crop starts: at random while training, else so that it is centred. */
  function CropOffset(train: bool, random: nat, imageSize: nat, crop: nat): (offset: nat)
    requires crop <= imageSize && random <= imageSize - crop
    ensures offset + crop <= imageSize
    ensures train ==> offset == random
    ensures !train ==> 0 <= (imageSize - crop - offset) - offset <= 1
  {
    if train then random else (imageSize - crop) / 2
  }

  /** The transform of an image that is cropped when a crop size is set, and else taken from its top left corner. */
  method TransformImage(img: Image, rows: nat, cols: nat, shape: Param, crop: bool, train: bool, randomH: nat,
        randomW: nat, data: array<real>, at: nat)
    requires Fits(img, rows, cols, shape.(hoff := 0, woff := 0))
    requires randomH <= rows - shape.height && randomW <= cols - shape.width
    requires at + shape.channels * Pixels(shape) <= data.Length
    modifies data
    ensures var t := if crop then
                       shape.(hoff := CropOffset(train, randomH, rows, shape.height),
                              woff := CropOffset(train, randomW, cols, shape.width))
                     else shape.(hoff := 0, woff := 0);
            Fits(img, rows, cols, t) && data[at..at + shape.channels * Pixels(shape)] == Transformed(img, rows, cols, t)
  {
    var hoff, woff := 0, 0;
    if crop {
      hoff := CropOffset(train, randomH, rows, shape.height);
      woff := CropOffset(train, randomW, cols, shape.width);
    }
    var t := shape.(hoff := hoff, woff := woff);
    Transform(img, rows, cols, t, data, at);
    assert data[at..at + t.channels * Pixels(t)] == Transformed(img, rows, cols, t);
  }

  method TransformLoops(img: Image, rows: nat, cols: nat, t: Param, data: array<real>, at: nat, ghost target: seq<nat>,
        ghost value: seq<real>)
    requires Fits(img, rows, cols, t) && Described(img, rows, cols, t, target, value) && at + |target| <= data.Length
    modifies data
    ensures Written(target, value, data[..], at, |target|) && SameOutside(old(data[..]), data[..], at, |target|)
  {
    ghost var before, count := data[..], 0;
    for h := 0 to t.height
      invariant count == h * t.width * t.channels
      invariant Written(target, value, data[..], at, count) && SameOutside(before, data[..], at, |target|)
    {
      var imgIndex := 0;
      ghost var row := h * t.width;
      for w := 0 to t.width
        invariant imgIndex == w * t.channels && count == (row + w) * t.channels
        invariant Written(target, value, data[..], at, count) && SameOutside(before, data[..], at, |target|)
      {
        imgIndex := TransformPixel(img, rows, cols, t, data, at, h, w, imgIndex, count, before, target, value);
        NextMultiple(row + w, t.channels);
        NextMultiple(w, t.channels);
        count := count + t.channels;
      }
      NextMultiple(h, t.width);
    }
    Product(Pixels(t), t.channels);
  }
}
