/** The numpy-like helpers over vectors and matrices that the detection layers are built from. */
module NumpyOps {
  import opened BoxMath
  import opened Sequences

  predicate Rectangular<T>(arr: seq<seq<T>>, cols: nat) {
    forall i :: 0 <= i < |arr| ==> |arr[i]| == cols
  }

  function Column<T>(arr: seq<seq<T>>, cols: nat, j: nat): (c: seq<T>)
    requires Rectangular(arr, cols) && j < cols
    ensures |c| == |arr|
  {
    seq(|arr|, i requires 0 <= i < |arr| => arr[i][j])
  }

  // ---------- Maxima ----------

  /** k is where the maximum of s is attained first. */
  predicate IsArgmax(s: seq<real>, k: nat) {
    && k < |s|
    && (forall j :: 0 <= j < |s| ==> s[j] <= s[k])
    && (forall j :: 0 <= j < k ==> s[j] < s[k])
  }

  /** The inner loop of np_argmax, over a row or a column. */
  method ArgmaxOf(s: seq<real>) returns (maxIndex: nat)
    requires s != []
    ensures IsArgmax(s, maxIndex)
  {
    var max := s[0];
    maxIndex := 0;
    for j := 1 to |s|
      invariant maxIndex < j && max == s[maxIndex]
      invariant forall k :: 0 <= k < j ==> s[k] <= max
      invariant forall k :: 0 <= k < maxIndex ==> s[k] < max
    {
      if s[j] > max {
        max := s[j];
        maxIndex := j;
      }
    }
  }

  /** Axis 0 gives one index a column, axis 1 one a row. */
  method NpArgmax(arr: Matrix, cols: nat, axis: nat) returns (result: seq<nat>)
    requires axis < 2 && |arr| >= 1 && cols >= 1 && Rectangular(arr, cols)
    ensures axis == 0 ==> |result| == cols && forall j :: 0 <= j < cols ==> IsArgmax(Column(arr, cols, j), result[j])
    ensures axis == 1 ==> |result| == |arr| && forall i :: 0 <= i < |arr| ==> IsArgmax(arr[i], result[i])
  {
    result := [];
    if axis == 0 {
      for i := 0 to cols
        invariant |result| == i && forall j :: 0 <= j < i ==> IsArgmax(Column(arr, cols, j), result[j])
      {
        var maxIndex := ArgmaxOf(Column(arr, cols, i));
        result := result + [maxIndex];
      }
    } else {
      for i := 0 to |arr|
        invariant |result| == i && forall j :: 0 <= j < i ==> IsArgmax(arr[j], result[j])
      {
        var maxIndex := ArgmaxOf(arr[i]);
        result := result + [maxIndex];
      }
    }
  }

  method NpMaxByAxis(arr: Matrix, cols: nat) returns (result: seq<real>)
    requires |arr| >= 1 && cols >= 1 && Rectangular(arr, cols)
    ensures |result| == |arr|
    ensures forall i :: 0 <= i < |arr| ==> result[i] in arr[i] && forall j :: 0 <= j < cols ==> arr[i][j] <= result[i]
  {
    result := [];
    for i := 0 to |arr|
      invariant |result| == i
      invariant forall k :: 0 <= k < i ==> result[k] in arr[k] && forall j :: 0 <= j < cols ==> arr[k][j] <= result[k]
    {
      var maxIndex := ArgmaxOf(arr[i]);
      result := result + [arr[i][maxIndex]];
    }
  }

  method NpArrayValueByIndexArray(arr: Matrix, cols: nat, axis: nat, index: seq<nat>) returns (result: seq<real>)
    requires axis < 2 && |arr| >= 1 && cols >= 1 && Rectangular(arr, cols)
    requires axis == 0 ==> |index| == cols && forall i :: 0 <= i < cols ==> index[i] < |arr|
    requires axis == 1 ==> |index| == |arr| && forall i :: 0 <= i < |arr| ==> index[i] < cols
    ensures |result| == |index|
    ensures forall i :: 0 <= i < |index| ==> result[i] == if axis == 0 then arr[index[i]][i] else arr[i][index[i]]
  {
    result := [];
    for i := 0 to |index|
      invariant |result| == i
      invariant forall k :: 0 <= k < i ==> result[k] == if axis == 0 then arr[index[k]][k] else arr[k][index[k]]
    {
      result := result + [if axis == 0 then arr[index[i]][i] else arr[i][index[i]]];
    }
  }

  // ---------- Selecting indices ----------

  predicate Increasing(r: seq<nat>) {
    forall i, j :: 0 <= i < j < |r| ==> r[i] < r[j]
  }

  /** r lists, in order, exactly the indices below n that satisfy p. */
  ghost predicate IsWhere(r: seq<nat>, n: nat, p: nat -> bool) {
    Increasing(r) && forall i: nat :: i in r <==> i < n && p(i)
  }

  datatype Comp = GT | GE | EQ | LE | LT | NE

  predicate Compare(comp: Comp, a: real, b: real) {
    match comp
    case GT => a > b
    case GE => a >= b
    case EQ => a == b
    case LE => a <= b
    case LT => a < b
    case NE => a != b
  }

  lemma ExtendWhere(r: seq<nat>, n: nat, p: nat -> bool)
    requires IsWhere(r, n, p)
    ensures IsWhere(if p(n) then r + [n] else r, n + 1, p)
  {
    forall i | 0 <= i < |r| ensures r[i] < n {
      assert r[i] in r;
    }
  }

  method NpWhereS(arr: seq<real>, comp: Comp, criteria: real) returns (result: seq<nat>)
    ensures IsWhere(result, |arr|, (i: nat) => i < |arr| && Compare(comp, arr[i], criteria))
  {
    ghost var p := (i: nat) => i < |arr| && Compare(comp, arr[i], criteria);
    result := [];
    for i := 0 to |arr|
      invariant IsWhere(result, i, p)
    {
      ExtendWhere(result, i, p);
      if Compare(comp, arr[i], criteria) {
        result := result + [i];
      }
    }
  }

  method NpWhereLabel(labels: seq<int>, criteria: int) returns (result: seq<nat>)
    ensures IsWhere(result, |labels|, (i: nat) => i < |labels| && labels[i] == criteria)
  {
    ghost var p := (i: nat) => i < |labels| && labels[i] == criteria;
    result := [];
    for i := 0 to |labels|
      invariant IsWhere(result, i, p)
    {
      ExtendWhere(result, i, p);
      if labels[i] == criteria {
        result := result + [i];
      }
    }
  }

  /** Rows that hold the given value in column loc. */
  method NpWhereColumn(arr: Matrix, criteria: real, loc: nat) returns (result: seq<nat>)
    requires |arr| > 0 && forall i :: 0 <= i < |arr| ==> loc < |arr[i]|
    ensures IsWhere(result, |arr|, (i: nat) => i < |arr| && arr[i][loc] == criteria)
  {
    ghost var p := (i: nat) => i < |arr| && arr[i][loc] == criteria;
    result := [];
    for i := 0 to |arr|
      invariant IsWhere(result, i, p)
    {
      ExtendWhere(result, i, p);
      if arr[i][loc] == criteria {
        result := result + [i];
      }
    }
  }

  predicate MatchesSome(row: Row, criteria: Row) {
    exists j :: 0 <= j < |row| && j < |criteria| && row[j] == criteria[j]
  }

  /** Rows that agree with the criteria in at least one column. */
  method NpWhereAnyColumn(arr: Matrix, criteria: Row) returns (result: seq<nat>)
    requires Rectangular(arr, |criteria|)
    ensures IsWhere(result, |arr|, (i: nat) => i < |arr| && MatchesSome(arr[i], criteria))
  {
    ghost var p := (i: nat) => i < |arr| && MatchesSome(arr[i], criteria);
    result := [];
    for i := 0 to |arr|
      invariant IsWhere(result, i, p)
    {
      ExtendWhere(result, i, p);
      var found := false;
      for j := 0 to |criteria|
        invariant found <==> exists k :: 0 <= k < j && arr[i][k] == criteria[k]
      {
        if arr[i][j] == criteria[j] {
          found := true;
          break;
        }
      }
      assert found <==> p(i);
      if found {
        result := result + [i];
      }
    }
  }

  /** Every condition holds; a condition with no case in the source is refused before. */
  predicate MeetsAll(a: real, comp: seq<Comp>, criteria: seq<real>)
    requires |comp| == |criteria|
  {
    forall j :: 0 <= j < |comp| ==> Compare(comp[j], a, criteria[j])
  }

  method NpWhere(arr: seq<real>, comp: seq<Comp>, criteria: seq<real>) returns (result: seq<nat>)
    requires |comp| == |criteria| && |comp| >= 1 && |arr| >= 1 && NE !in comp
    ensures IsWhere(result, |arr|, (i: nat) => i < |arr| && MeetsAll(arr[i], comp, criteria))
  {
    ghost var p := (i: nat) => i < |arr| && MeetsAll(arr[i], comp, criteria);
    result := [];
    for i := 0 to |arr|
      invariant IsWhere(result, i, p)
    {
      ExtendWhere(result, i, p);
      var cond := true;
      for j := 0 to |comp|
        invariant cond <==> forall k :: 0 <= k < j ==> Compare(comp[k], arr[i], criteria[k])
      {
        if !Compare(comp[j], arr[i], criteria[j]) {
          cond := false;
          break;
        }
      }
      if cond {
        result := result + [i];
      }
    }
  }

  /** A selection has as many indices as there are values selected. */
  lemma {:induction false} WhereCounts(r: seq<nat>, labels: seq<int>, v: int)
    requires IsWhere(r, |labels|, (i: nat) => i < |labels| && labels[i] == v)
    ensures |r| == multiset(labels)[v]
  {
    if labels == [] {
      FirstIsMember(r);
    } else {
      var n := |labels| - 1;
      var front := labels[..n];
      assert labels == front + [labels[n]];
      if labels[n] == v {
        LastOfWhere(r, n);
      }
      var rest := if labels[n] == v then r[..|r| - 1] else r;
      forall i: nat ensures i in rest <==> i < n && front[i] == v {
        assert i < n ==> front[i] == labels[i];
        assert i in r <==> i <= n && labels[i] == v;
        if labels[n] == v {
          assert r == rest + [n];
          assert i in rest ==> i != n;
        }
      }
      WhereCounts(rest, front, v);
    }
  }

  lemma FirstIsMember(r: seq<nat>)
    ensures r == [] || r[0] in r
  {
  }

  lemma LastOfWhere(r: seq<nat>, n: nat)
    requires Increasing(r) && n in r && forall i :: i in r ==> i <= n
    ensures r != [] && r[|r| - 1] == n
  {
    assert r[|r| - 1] in r;
  }

  // ---------- Choosing, keeping, sorting ----------

  /** A rearrangement of 0 .. n - 1, such as random_shuffle makes. */
  predicate IsPermutation(perm: seq<nat>, n: nat) {
    |perm| == n && Distinct(perm) && forall i :: 0 <= i < n ==> perm[i] < n
  }

  /** What random_shuffle does to 0 .. n - 1, for every n. */
  ghost predicate Shuffles(shuffle: nat -> seq<nat>) {
    forall n :: IsPermutation(shuffle(n), n)
  }

  function MinNat(a: nat, b: nat): (m: nat)
    ensures m <= a && m <= b && (m == a || m == b)
  {
    if a < b then a else b
  }

  /** Distinct positions below n. */
  predicate Selection(src: seq<nat>, n: nat) {
    Distinct(src) && forall i :: 0 <= i < |src| ==> src[i] < n
  }

  /** A permutation of 0 .. n - 1 takes every value below n. */
  lemma {:induction false} PermutationHits(perm: seq<nat>, n: nat, v: nat)
    requires IsPermutation(perm, n) && v < n
    ensures v in perm
  {
    DistinctSize(perm, n);
    if v !in perm {
      SubsetSize(Values(perm, n), Range(n) - {v});
    }
  }

  function Range(n: nat): (r: set<nat>)
    ensures |r| == n && forall x: nat :: x in r <==> x < n
  {
    if n == 0 then {} else Range(n - 1) + {n - 1}
  }

  function Values(s: seq<nat>, n: nat): set<nat>
    requires n <= |s|
  {
    set i | 0 <= i < n :: s[i]
  }

  lemma LastValue(s: seq<nat>, n: nat)
    requires Distinct(s) && 0 < n <= |s|
    ensures Values(s, n) == Values(s, n - 1) + {s[n - 1]} && s[n - 1] !in Values(s, n - 1)
  {
  }

  lemma {:induction false} DistinctSize(s: seq<nat>, n: nat)
    requires Distinct(s) && n <= |s|
    ensures |Values(s, n)| == n
  {
    if n > 0 {
      DistinctSize(s, n - 1);
      LastValue(s, n);
    }
  }

  lemma {:induction false} SubsetSize(a: set<nat>, b: set<nat>)
    requires a <= b
    ensures |a| <= |b|
  {
    if a != {} {
      var x :| x in a;
      SubsetSize(a - {x}, b - {x});
    }
  }

  /** Chooses without replacement: the first elements in a shuffled order. */
  method NprChoice<T>(arr: seq<T>, size: nat, shuffled: seq<nat>) returns (result: seq<T>)
    requires size <= |arr| && IsPermutation(shuffled, |arr|)
    ensures |result| == size
    ensures forall i :: 0 <= i < size ==> result[i] == arr[shuffled[i]]
  {
    result := [];
    for i := 0 to size
      invariant |result| == i && forall k :: 0 <= k < i ==> result[k] == arr[shuffled[k]]
    {
      result := result + [arr[shuffled[i]]];
    }
  }

  /** What is chosen from distinct elements is distinct, and was there to choose. */
  lemma ChoiceIsDistinct<T>(arr: seq<T>, size: nat, shuffled: seq<nat>, result: seq<T>)
    requires size <= |arr| && IsPermutation(shuffled, |arr|) && Distinct(arr)
    requires |result| == size && forall i :: 0 <= i < size ==> result[i] == arr[shuffled[i]]
    ensures Distinct(result) && forall x :: x in result ==> x in arr
  {
  }

  function Pick<T>(arr: seq<T>, index: seq<nat>): (r: seq<T>)
    requires forall i :: 0 <= i < |index| ==> index[i] < |arr|
    ensures |r| == |index|
  {
    seq(|index|, i requires 0 <= i < |index| => arr[index[i]])
  }

  method VecKeepByIndex<T>(arr: seq<T>, index: seq<nat>) returns (result: seq<T>)
    requires forall i :: 0 <= i < |index| ==> index[i] < |arr|
    ensures result == Pick(arr, index)
  {
    result := [];
    for i := 0 to |index|
      invariant |result| == i && forall k :: 0 <= k < i ==> result[k] == arr[index[k]]
    {
      result := result + [arr[index[i]]];
    }
  }

  /** Picking twice is picking once by the picked indices, which stay distinct. */
  lemma PickTwice<T>(arr: seq<T>, index: seq<nat>, again: seq<nat>)
    requires forall i :: 0 <= i < |index| ==> index[i] < |arr|
    requires forall i :: 0 <= i < |again| ==> again[i] < |index|
    ensures forall i :: 0 <= i < |again| ==> Pick(index, again)[i] < |arr|
    ensures Pick(Pick(arr, index), again) == Pick(arr, Pick(index, again))
    ensures Distinct(index) && Distinct(again) ==> Distinct(Pick(index, again))
  {
  }

  /** What vec_argsort makes of the identity: a permutation by which the array is in non-increasing order. */
  predicate IsArgsort(order: seq<nat>, arr: seq<real>) {
    IsPermutation(order, |arr|) && forall i, j :: 0 <= i < j < |order| ==> arr[order[i]] >= arr[order[j]]
  }

  /** Shifts every row to the right, starting at its end, and puts zeros in front. */
  method Vec2dPad(leftPad: nat, arr: Matrix) returns (result: Matrix)
    requires forall i :: 0 <= i < |arr| ==> |arr[i]| == |arr[0]|
    ensures |result| == |arr|
    ensures forall i :: 0 <= i < |arr| ==> result[i] == seq(leftPad, k => 0.0) + arr[i]
  {
    result := arr;
    if |arr| < 1 {
      return;
    }
    var innerSize := |arr[0]| + leftPad;
    for i := 0 to |arr|
      invariant |result| == |arr| && forall k :: i <= k < |arr| ==> result[k] == arr[k]
      invariant forall k :: 0 <= k < i ==> result[k] == seq(leftPad, m => 0.0) + arr[k]
    {
      var item := result[i] + seq(leftPad, k => 0.0);
      var j := innerSize;
      while j > leftPad
        invariant leftPad <= j <= innerSize == |item|
        invariant forall k :: 0 <= k < |arr[i]| ==>
                  item[k + leftPad] == if k + leftPad >= j then arr[i][k] else item[k + leftPad]
        invariant forall k :: 0 <= k < j && k < |arr[i]| ==> item[k] == arr[i][k]
      {
        j := j - 1;
        item := item[j := item[j - leftPad]];
      }
      for k := 0 to leftPad
        invariant |item| == innerSize && forall m :: 0 <= m < k ==> item[m] == 0.0
        invariant forall m :: leftPad <= m < innerSize ==> item[m] == arr[i][m - leftPad]
      {
        item := item[k := 0.0];
      }
      assert item == seq(leftPad, m => 0.0) + arr[i];
      result := result[i := item];
    }
  }

  /** nms around the GPU routine, whose kept positions are strictly increasing in the sorted order. */
  method Nms(scores: seq<real>, order: seq<nat>, kept: seq<nat>) returns (keep: seq<nat>)
    requires IsArgsort(order, scores) && Increasing(kept) && forall i :: 0 <= i < |kept| ==> kept[i] < |scores|
    ensures |keep| == |kept| && Distinct(keep)
    ensures forall i :: 0 <= i < |keep| ==> keep[i] == order[kept[i]] && keep[i] < |scores|
    ensures forall i, j :: 0 <= i < j < |keep| ==> scores[keep[i]] >= scores[keep[j]]
  {
    keep := [];
    for i := 0 to |kept|
      invariant |keep| == i && forall k :: 0 <= k < i ==> keep[k] == order[kept[k]]
    {
      keep := keep + [order[kept[i]]];
    }
  }
}
