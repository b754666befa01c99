/**
 * Images as flat buffers: channel-last (HWC) and channel-first (CHW) order, and the crop, mirror and scale transform.
 */
module ChannelLayout {
  import opened Modular

  // ---------- Index maps; an image has p pixels of c channels ----------

  /** Where element k of the channel-last buffer goes in the channel-first one. */
  function ToChw(c: nat, p: nat, k: nat): (j: nat)
    requires k < c * p
    ensures j < c * p
  {
    IndexBound(k % c, k / c, c, p, k);
    k % c * p + k / c
  }

  function ToHwc(c: nat, p: nat, j: nat): (k: nat)
    requires j < c * p
    ensures k < c * p
  {
    IndexBound(j % p, j / p, p, c, j);
    j % p * c + j / p
  }

  /** k has remainder r and quotient q by a, so r * b + q is below a * b. */
  lemma IndexBound(r: int, q: int, a: nat, b: nat, k: nat)
    requires k < a * b && a > 0 && r == k % a && q == k / a
    ensures 0 <= q < b && 0 <= r < a && 0 <= r * b + q < a * b
  {
    assert k == a * q + r;
    if q >= b {
      Product(a, q - b);
    }
    assert q < b;
    Product(a - 1 - r, b);
    Product(r, b);
    assert r * b + q < (r + 1) * b;
    assert (r + 1) * b == a * b - (a - 1 - r) * b;
  }

  /** Exchanging remainder and quotient twice gives k back. */
  lemma SwapTwice(a: nat, b: nat, k: nat, j: nat)
    requires k < a * b && j == k % a * b + k / a
    ensures j < a * b && a > 0 && b > 0 && j % b * a + j / b == k
  {
    Product(a, b);
    IndexBound(k % a, k / a, a, b, k);
    assert j == b * (k % a) + k / a;
    DivModUnique(j, b, k % a, k / a);
    assert k == a * (k / a) + k % a;
  }

  lemma {:induction false} IndexMapsInverse(c: nat, p: nat, k: nat)
    requires k < c * p
    ensures ToHwc(c, p, ToChw(c, p, k)) == k
    ensures ToChw(c, p, ToHwc(c, p, k)) == k
  {
    SwapTwice(c, p, k, ToChw(c, p, k));
    Product(c, p);
    SwapTwice(p, c, k, ToHwc(c, p, k));
  }

  /**
   * The closed formulas of the source: element (h, w, c) has number (h * W + w) * C + c in one buffer and (c * H + h) *
   * W + w in the other.
   */
  lemma ClosedFormulas(channels: nat, height: nat, width: nat, h: nat, w: nat, c: nat)
    requires h < height && w < width && c < channels
    ensures h * width + w < height * width
    ensures (h * width + w) * channels + c < channels * (height * width)
    ensures ToChw(channels, height * width, (h * width + w) * channels + c) == (c * height + h) * width + w
    ensures ToHwc(channels, height * width, (c * height + h) * width + w) == (h * width + w) * channels + c
  {
    var p, q := height * width, h * width + w;
    Product(height - 1 - h, width);
    assert p - (h + 1) * width == (height - 1 - h) * width;
    assert q < p;
    Product(p - 1 - q, channels);
    var k := q * channels + c;
    assert k < channels * p;
    DivModUnique(k, channels, q, c);
    assert (c * height + h) * width + w == c * p + q;
    IndexMapsInverse(channels, p, k);
  }

  function AsChw<T>(c: nat, p: nat, hwc: seq<T>): (chw: seq<T>)
    requires |hwc| == c * p
    ensures |chw| == c * p
  {
    seq(c * p, j requires 0 <= j < c * p => hwc[ToHwc(c, p, j)])
  }

  function AsHwc<T>(c: nat, p: nat, chw: seq<T>): (hwc: seq<T>)
    requires |chw| == c * p
    ensures |hwc| == c * p
  {
    seq(c * p, k requires 0 <= k < c * p => chw[ToChw(c, p, k)])
  }

  /** Converting there and back is the identity, both ways. */
  lemma ConversionsInverse<T>(c: nat, p: nat, s: seq<T>)
    requires |s| == c * p
    ensures AsHwc(c, p, AsChw(c, p, s)) == s
    ensures AsChw(c, p, AsHwc(c, p, s)) == s
  {
    forall k | 0 <= k < c * p ensures AsHwc(c, p, AsChw(c, p, s))[k] == s[k] && AsChw(c, p, AsHwc(c, p, s))[k] == s[k] {
      IndexMapsInverse(c, p, k);
    }
  }

  /** No two elements go to the same place. */
  lemma ToChwInjective(c: nat, p: nat, k: nat, l: nat)
    requires k < c * p && l < c * p && ToChw(c, p, k) == ToChw(c, p, l)
    ensures k == l
  {
    IndexMapsInverse(c, p, k);
    IndexMapsInverse(c, p, l);
  }

  lemma ToHwcInjective(c: nat, p: nat, j: nat, l: nat)
    requires j < c * p && l < c * p && ToHwc(c, p, j) == ToHwc(c, p, l)
    ensures j == l
  {
    IndexMapsInverse(c, p, j);
    IndexMapsInverse(c, p, l);
  }

  // ---------- The converters ----------

  /** The first n elements of the channel-last buffer are in place. */
  ghost predicate PlacedChw<T>(c: nat, p: nat, src: seq<T>, dst: seq<T>, n: nat) {
    |src| == |dst| == c * p && forall k: nat :: k < n && k < c * p ==> dst[ToChw(c, p, k)] == src[k]
  }

  ghost predicate PlacedHwc<T>(c: nat, p: nat, src: seq<T>, dst: seq<T>, n: nat) {
    |src| == |dst| == c * p && forall j: nat :: j < n && j < c * p ==> dst[ToHwc(c, p, j)] == src[j]
  }

  lemma PlaceChw<T>(c: nat, p: nat, src: seq<T>, dst: seq<T>, n: nat)
    requires PlacedChw(c, p, src, dst, n) && n < c * p
    ensures PlacedChw(c, p, src, dst[ToChw(c, p, n) := src[n]], n + 1)
  {
    forall k: nat | k <= n ensures dst[ToChw(c, p, n) := src[n]][ToChw(c, p, k)] == src[k] {
      if ToChw(c, p, k) == ToChw(c, p, n) {
        ToChwInjective(c, p, k, n);
      }
    }
  }

  lemma PlaceHwc<T>(c: nat, p: nat, src: seq<T>, dst: seq<T>, n: nat)
    requires PlacedHwc(c, p, src, dst, n) && n < c * p
    ensures PlacedHwc(c, p, src, dst[ToHwc(c, p, n) := src[n]], n + 1)
  {
    forall j: nat | j <= n ensures dst[ToHwc(c, p, n) := src[n]][ToHwc(c, p, j)] == src[j] {
      if ToHwc(c, p, j) == ToHwc(c, p, n) {
        ToHwcInjective(c, p, j, n);
      }
    }
  }

  lemma AllPlacedChw<T>(c: nat, p: nat, src: seq<T>, dst: seq<T>)
    requires PlacedChw(c, p, src, dst, c * p)
    ensures dst == AsChw(c, p, src)
  {
    forall j | 0 <= j < c * p ensures dst[j] == AsChw(c, p, src)[j] {
      IndexMapsInverse(c, p, j);
    }
  }

  lemma AllPlacedHwc<T>(c: nat, p: nat, src: seq<T>, dst: seq<T>)
    requires PlacedHwc(c, p, src, dst, c * p)
    ensures dst == AsHwc(c, p, src)
  {
    forall k | 0 <= k < c * p ensures dst[k] == AsHwc(c, p, src)[k] {
      IndexMapsInverse(c, p, k);
    }
  }

  method ConvertHWCToCHW<T>(channels: nat, height: nat, width: nat, src: array<T>, dst: array<T>)
    requires src != dst && src.Length == dst.Length == channels * (height * width)
    modifies dst
    ensures dst[..] == AsChw(channels, height * width, src[..])
  {
    var srcIdx := 0;
    ghost var p := height * width;
    for h := 0 to height
      invariant srcIdx == h * width * channels && PlacedChw(channels, p, src[..], dst[..], srcIdx)
    {
      ghost var row := h * width;
      for w := 0 to width
        invariant srcIdx == (row + w) * channels && PlacedChw(channels, p, src[..], dst[..], srcIdx)
      {
        ghost var first := srcIdx;
        for c := 0 to channels
          invariant srcIdx == first + c && PlacedChw(channels, p, src[..], dst[..], srcIdx)
        {
          ClosedFormulas(channels, height, width, h, w, c);
          PlaceChw(channels, p, src[..], dst[..], srcIdx);
          var dstIdx := (c * height + h) * width + w;
          dst[dstIdx] := src[srcIdx];
          srcIdx := srcIdx + 1;
        }
        NextMultiple(row + w, channels);
      }
      NextMultiple(h, width);
    }
    Product(p, channels);
    AllPlacedChw(channels, p, src[..], dst[..]);
  }

  method ConvertCHWToHWC<T>(channels: nat, height: nat, width: nat, src: array<T>, dst: array<T>)
    requires src != dst && src.Length == dst.Length == channels * (height * width)
    modifies dst
    ensures dst[..] == AsHwc(channels, height * width, src[..])
  {
    var srcIdx := 0;
    ghost var p := height * width;
    for c := 0 to channels
      invariant srcIdx == c * height * width && PlacedHwc(channels, p, src[..], dst[..], srcIdx)
    {
      ghost var plane := c * height;
      for h := 0 to height
        invariant srcIdx == (plane + h) * width && PlacedHwc(channels, p, src[..], dst[..], srcIdx)
      {
        ghost var first := srcIdx;
        for w := 0 to width
          invariant srcIdx == first + w && PlacedHwc(channels, p, src[..], dst[..], srcIdx)
        {
          ClosedFormulas(channels, height, width, h, w, c);
          PlaceHwc(channels, p, src[..], dst[..], srcIdx);
          var dstIdx := (h * width + w) * channels + c;
          var value := src[srcIdx];
          srcIdx := srcIdx + 1;
          dst[dstIdx] := value;
        }
        NextMultiple(plane + h, width);
      }
      NextMultiple(c, height);
    }
    assert channels * height * width == channels * p;
    AllPlacedHwc(channels, p, src[..], dst[..]);
  }
}
