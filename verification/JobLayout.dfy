/** The byte layout that addJobElem builds one element at a time, and that the typed getters read back. */
module JobLayout {
  import opened Bytes

  type word = x: int | 0 <= x < 0x1_0000_0000
  type int32 = x: int | -0x8000_0000 <= x < 0x8000_0000

  // ---------- Little-endian words ----------

  function LowByte(x: int): byte {
    x % 256
  }

  function WordBytes(w: word): (b: seq<byte>)
    ensures |b| == 4
  {
    [LowByte(w), LowByte(w / 256), LowByte(w / 65536), LowByte(w / 16777216)]
  }

  function FromBytes(b0: int, b1: int, b2: int, b3: int): int {
    b0 + 256 * b1 + 65536 * b2 + 16777216 * b3
  }

  function WordAt(b: seq<byte>, at: nat): (w: word)
    requires at + 4 <= |b|
    ensures w as int ==
            b[at] as int + 0x100 * b[at + 1] as int + 0x1_0000 * b[at + 2] as int + 0x100_0000 * b[at + 3] as int
  {
    FromBytes(b[at], b[at + 1], b[at + 2], b[at + 3])
  }

  /** Two's complement. */
  function IntBytes(v: int32): (b: seq<byte>)
    ensures |b| == 4
  {
    WordBytes(if v < 0 then v + 0x1_0000_0000 else v)
  }

  function IntAt(b: seq<byte>, at: nat): int32
    requires at + 4 <= |b|
  {
    var w := WordAt(b, at);
    if w < 0x8000_0000 then w else w - 0x1_0000_0000
  }

  lemma IntRoundTrip(v: int32)
    ensures IntAt(IntBytes(v), 0) == v
  {
    WordRoundTrip(if v < 0 then v + 0x1_0000_0000 else v);
  }

  lemma WordRoundTrip(w: word)
    ensures WordAt(WordBytes(w), 0) == w
  {
    assert w / 65536 == w / 256 / 256 && w / 16777216 == w / 65536 / 256;
  }

  /** Reading depends on the four bytes only. */
  lemma ReadsFourBytes(b: seq<byte>, at: nat, c: seq<byte>, ct: nat)
    requires at + 4 <= |b| && ct + 4 <= |c| && b[at..at + 4] == c[ct..ct + 4]
    ensures WordAt(b, at) == WordAt(c, ct) && IntAt(b, at) == IntAt(c, ct)
  {
    assert b[at] == b[at..at + 4][0] && b[at + 1] == b[at..at + 4][1] && b[at + 2] == b[at..at + 4][2] &&
      b[at + 3] == b[at..at + 4][3];
    assert c[ct] == c[ct..ct + 4][0] && c[ct + 1] == c[ct..ct + 4][1] && c[ct + 2] == c[ct..ct + 4][2] &&
      c[ct + 3] == c[ct..ct + 4][3];
  }

  lemma ReadsPart(b: seq<byte>, at: nat, part: seq<byte>, k: nat)
    requires at + |part| <= |b| && b[at..at + |part|] == part && k + 4 <= |part|
    ensures WordAt(b, at + k) == WordAt(part, k) && IntAt(b, at + k) == IntAt(part, k)
  {
    assert b == b[..at] + part + b[at + |part|..];
    assert part == part[..k] + part[k..k + 4] + part[k + 4..];
    assert b[at + k..at + k + 4] == part[k..k + 4];
    ReadsFourBytes(b, at + k, part, k);
  }

  // ---------- The layout as a function of what was added ----------

  datatype ElemType = IntType | FloatType | FloatArrayType | StringType

  predicate HasLength(t: ElemType) {
    t == FloatArrayType || t == StringType
  }

  /** The arguments of one addJobElem call: data are the bytes behind dataPtr. */
  datatype Elem = Elem(elemType: ElemType, arrayCount: int32, data: seq<byte>)

  function ElemSize(t: ElemType): nat {
    if t == StringType then 1 else 4
  }

  /** What addJobElem copies; a string goes with its terminating NUL. */
  function CopySize(t: ElemType, arrayCount: int): int {
    (if t == FloatArrayType then arrayCount else if t == StringType then arrayCount + 1 else 1) * ElemSize(t)
  }

  /** What addJobElem asserts of its arguments, and the number of bytes that it reads. */
  predicate WellFormed(e: Elem) {
    (HasLength(e.elemType) ==> e.arrayCount > 0) && |e.data| == CopySize(e.elemType, e.arrayCount)
  }

  function PrefixSize(t: ElemType): nat {
    if HasLength(t) then 4 else 0
  }

  /** The bytes of an element that no later element overwrites: the length, and the data without the NUL. */
  function Kept(e: Elem): seq<byte>
    requires WellFormed(e)
  {
    (if HasLength(e.elemType) then IntBytes(e.arrayCount) else [])
    + (if e.elemType == StringType then e.data[..e.arrayCount] else e.data)
  }

  predicate AllWellFormed(s: seq<Elem>) {
    forall i :: 0 <= i < |s| ==> WellFormed(s[i])
  }

  /** The bytes of the first i elements. */
  function LayoutTo(s: seq<Elem>, i: nat): (b: seq<byte>)
    requires AllWellFormed(s) && i <= |s|
    ensures |b| == Start(s, i)
  {
    if i == 0 then [] else LayoutTo(s, i - 1) + Kept(s[i - 1])
  }

  function Layout(s: seq<Elem>): seq<byte>
    requires AllWellFormed(s)
  {
    LayoutTo(s, |s|)
  }

  /** Where element i starts, length included. */
  function Start(s: seq<Elem>, i: nat): nat
    requires AllWellFormed(s) && i <= |s|
  {
    if i == 0 then 0 else Start(s, i - 1) + |Kept(s[i - 1])|
  }

  /** elemOffset: where the data of element i are. */
  function Offset(s: seq<Elem>, i: nat): nat
    requires AllWellFormed(s) && i < |s|
  {
    Start(s, i) + PrefixSize(s[i].elemType)
  }

  /** Where the data of element i end. */
  function End(s: seq<Elem>, i: nat): nat
    requires AllWellFormed(s) && i < |s|
  {
    Start(s, i) + |Kept(s[i])|
  }

  /** The byte beyond the layout that a last string element leaves. */
  function Slack(s: seq<Elem>): nat {
    if s != [] && s[|s| - 1].elemType == StringType then 1 else 0
  }

  lemma {:induction false} AddedKeepsPrefix(s: seq<Elem>, e: Elem, i: nat)
    requires AllWellFormed(s) && WellFormed(e) && i <= |s|
    ensures LayoutTo(s + [e], i) == LayoutTo(s, i) && Start(s + [e], i) == Start(s, i)
  {
    if i > 0 {
      AddedKeepsPrefix(s, e, i - 1);
    }
  }

  lemma Added(s: seq<Elem>, e: Elem)
    requires AllWellFormed(s) && WellFormed(e)
    ensures Layout(s + [e]) == Layout(s) + Kept(e)
    ensures forall i: nat :: i < |s| ==> Offset(s + [e], i) == Offset(s, i)
    ensures Offset(s + [e], |s|) == |Layout(s)| + PrefixSize(e.elemType)
  {
    AddedKeepsPrefix(s, e, |s|);
    forall i: nat | i < |s| ensures Offset(s + [e], i) == Offset(s, i) {
      AddedKeepsPrefix(s, e, i);
    }
  }

  /** Later elements leave the bytes of the earlier ones as they were. */
  lemma {:induction false} LayoutOfPrefix(s: seq<Elem>, i: nat, n: nat)
    requires AllWellFormed(s) && i <= n <= |s|
    ensures Start(s, i) <= Start(s, n) && LayoutTo(s, n)[..Start(s, i)] == LayoutTo(s, i)
  {
    if i < n {
      LayoutOfPrefix(s, i, n - 1);
    }
  }

  /** Element ranges are contiguous from 0 to the layout's size, so they are disjoint. */
  lemma {:induction false} ElementsContiguous(s: seq<Elem>, i: nat)
    requires AllWellFormed(s) && i < |s|
    ensures End(s, i) == Start(s, i + 1) <= |Layout(s)| && (i + 1 == |s| ==> End(s, i) == |Layout(s)|) &&
            Start(s, 0) == 0
    ensures Layout(s)[Start(s, i)..End(s, i)] == Kept(s[i])
  {
    LayoutOfPrefix(s, i + 1, |s|);
    var upTo := LayoutTo(s, i + 1);
    assert upTo == LayoutTo(s, i) + Kept(s[i]);
    assert Layout(s)[Start(s, i)..End(s, i)] == upTo[Start(s, i)..];
  }

  lemma KeptStartsWithLength(e: Elem)
    requires WellFormed(e) && HasLength(e.elemType)
    ensures |Kept(e)| >= 4 && IntAt(Kept(e), 0) == e.arrayCount
  {
    var prefix := IntBytes(e.arrayCount);
    IntRoundTrip(e.arrayCount);
    assert Kept(e)[0..|prefix|] == prefix;
    ReadsPart(Kept(e), 0, prefix, 0);
  }

  /** The length of an array or a string sits in the four bytes before its data. */
  lemma LengthBeforeData(s: seq<Elem>, i: nat)
    requires AllWellFormed(s) && i < |s| && HasLength(s[i].elemType)
    ensures 4 <= Offset(s, i) <= |Layout(s)| && IntAt(Layout(s), Offset(s, i) - 4) == s[i].arrayCount
  {
    ElementsContiguous(s, i);
    KeptStartsWithLength(s[i]);
    ReadsPart(Layout(s), Start(s, i), Kept(s[i]), 0);
  }

  /** The bytes a getter reads are those added. */
  lemma DataReadBack(s: seq<Elem>, i: nat)
    requires AllWellFormed(s) && i < |s|
    ensures var n := |s[i].data| - (if s[i].elemType == StringType then 1 else 0);
            Offset(s, i) + n == End(s, i) <= |Layout(s)| && Layout(s)[Offset(s, i)..End(s, i)] == s[i].data[..n]
  {
    ElementsContiguous(s, i);
    var at := PrefixSize(s[i].elemType);
    assert Layout(s)[Offset(s, i)..End(s, i)] == Layout(s)[Start(s, i)..End(s, i)][at..];
    assert Kept(s[i])[at..] == if s[i].elemType == StringType then s[i].data[..s[i].arrayCount] else s[i].data;
  }

  lemma FourBytesInLayout(s: seq<Elem>, i: nat, k: nat)
    requires AllWellFormed(s) && i < |s| && s[i].elemType != StringType && k + 4 <= |s[i].data|
    ensures var at := Offset(s, i) + k;
            at + 4 <= |Layout(s)| && WordAt(Layout(s), at) == WordAt(s[i].data, k) &&
              IntAt(Layout(s), at) == IntAt(s[i].data, k)
  {
    DataReadBack(s, i);
    assert s[i].data[..|s[i].data|] == s[i].data;
    ReadsPart(Layout(s), Offset(s, i), s[i].data, k);
  }

  // ---------- The Job object ----------

  datatype JobElemDef = JobElemDef(elemType: ElemType, elemOffset: int, arrayCount: int32)

  /** The string constructor stops at the first NUL. */
  function UpToNul(b: seq<byte>): (r: seq<byte>)
    ensures r <= b && 0 !in r && (|r| < |b| ==> b[|r|] == 0)
  {
    if b == [] || b[0] == 0 then [] else [b[0]] + UpToNul(b[1..])
  }

  lemma {:induction false} StringComesBackWithoutNul(b: seq<byte>)
    ensures UpToNul(b) == b <==> 0 !in b
  {
    if b != [] {
      assert b == [b[0]] + b[1..];
      StringComesBackWithoutNul(b[1..]);
    }
  }

  ghost predicate DefsDescribe(defs: seq<JobElemDef>, s: seq<Elem>)
    requires AllWellFormed(s)
  {
    |defs| == |s| && forall i :: 0 <= i < |s| ==> DefOk(defs, s, i)
  }

  ghost predicate DefOk(defs: seq<JobElemDef>, s: seq<Elem>, i: nat)
    requires AllWellFormed(s) && i < |s| == |defs|
  {
    defs[i] == JobElemDef(s[i].elemType, Offset(s, i), s[i].arrayCount)
  }

  lemma DefAdded(defs: seq<JobElemDef>, s: seq<Elem>, e: Elem)
    requires AllWellFormed(s) && WellFormed(e) && DefsDescribe(defs, s)
    ensures DefsDescribe(defs + [JobElemDef(e.elemType, |Layout(s)| + PrefixSize(e.elemType), e.arrayCount)], s + [e])
  {
    Added(s, e);
    var longer := defs + [JobElemDef(e.elemType, |Layout(s)| + PrefixSize(e.elemType), e.arrayCount)];
    forall i: nat | i < |s| ensures DefOk(longer, s + [e], i) {
      assert DefOk(defs, s, i);
    }
  }

  ghost predicate ValuesHold(values: seq<byte>, s: seq<Elem>)
    requires AllWellFormed(s)
  {
    |values| == |Layout(s)| + Slack(s) && values[..|Layout(s)|] == Layout(s)
  }

  lemma CharsInValues(values: seq<byte>, s: seq<Elem>, i: nat)
    requires AllWellFormed(s) && ValuesHold(values, s) && i < |s| && s[i].elemType == StringType
    ensures Offset(s, i) + s[i].arrayCount <= |values|
    ensures values[Offset(s, i)..Offset(s, i) + s[i].arrayCount] == s[i].data[..s[i].arrayCount]
  {
    DataReadBack(s, i);
    var at, end := Offset(s, i), End(s, i);
    assert values[at..end] == values[..|Layout(s)|][at..end];
  }

  lemma ValueAdded(before: seq<byte>, values: seq<byte>, s: seq<Elem>, e: Elem)
    requires AllWellFormed(s) && WellFormed(e) && ValuesHold(before, s)
    requires |values| == |Layout(s)| + PrefixSize(e.elemType) + |e.data|
    requires |Layout(s)| + |Kept(e)| <= |values| && values[..|Layout(s)| + |Kept(e)|] == before[..|Layout(s)|] + Kept(e)
    ensures ValuesHold(values, s + [e])
  {
    Added(s, e);
    assert (s + [e])[|s|] == e;
  }

  class Job {
    var jobElemCnt: nat
    var jobElemDefs: array<JobElemDef>
    var jobElemValues: array<byte>
    ghost var added: seq<Elem>

    ghost predicate Valid()
      reads this, jobElemDefs, jobElemValues
    {
      && jobElemCnt == jobElemDefs.Length == |added| && AllWellFormed(added)
      && ValuesHold(jobElemValues[..], added)
      && DefsDescribe(jobElemDefs[..], added)
    }

    constructor ()
      ensures Valid() && added == [] && fresh(jobElemDefs) && fresh(jobElemValues)
    {
      jobElemCnt, added := 0, [];
      jobElemDefs := new JobElemDef[0];
      jobElemValues := new byte[0];
    }

    /** The sum over the elements, without any trailing NUL. */
    method GetJobElemValueSize() returns (totalSize: int)
      requires Valid()
      ensures totalSize == |Layout(added)|
    {
      totalSize := 0;
      for i := 0 to jobElemCnt
        invariant totalSize == Start(added, i)
      {
        assert DefOk(jobElemDefs[..], added, i);
        ElementsContiguous(added, i);
        match jobElemDefs[i].elemType {
          case IntType => totalSize := totalSize + 4;
          case FloatType => totalSize := totalSize + 4;
          case FloatArrayType => totalSize := totalSize + 4 + 4 * jobElemDefs[i].arrayCount;
          case StringType => totalSize := totalSize + 4 + jobElemDefs[i].arrayCount;
        }
      }
    }

    /** The size of the message body: ID, type, count, element types, and element values. */
    method GetJobSize() returns (totalSize: int)
      requires Valid()
      ensures totalSize == 12 + 4 * |added| + |Layout(added)|
    {
      var valueSize := GetJobElemValueSize();
      totalSize := 4 * (3 + jobElemCnt) + valueSize;
    }

    method AddJobElem(elemType: ElemType, arrayCount: int32, data: array<byte>)
      requires Valid() && WellFormed(Elem(elemType, arrayCount, data[..]))
      modifies this
      ensures Valid() && added == old(added) + [Elem(elemType, arrayCount, data[..])]
      ensures fresh(jobElemDefs) && fresh(jobElemValues)
    {
      ghost var before, e := added, Elem(elemType, arrayCount, data[..]);
      DefAdded(jobElemDefs[..], before, e);
      var tempJobElemDefs, tempJobElemValues := jobElemDefs, jobElemValues;
      var tempJobElemValueSize := GetJobElemValueSize();
      var def := JobElemDef(elemType, tempJobElemValueSize + PrefixSize(elemType), arrayCount);
      jobElemDefs := AppendDef(tempJobElemDefs, def);
      jobElemValues := AppendValue(tempJobElemValues, tempJobElemValueSize, elemType, arrayCount, data);
      ValueAdded(tempJobElemValues[..], jobElemValues[..], before, e);
      jobElemCnt, added := jobElemCnt + 1, before + [e];
    }

    /** Four bytes of an element's data are read back as they were added. */
    lemma FourBytesBack(elemIdx: nat, k: nat)
      requires Valid() && elemIdx < |added| && added[elemIdx].elemType != StringType && k + 4 <= |added[elemIdx].data|
      ensures jobElemDefs[elemIdx].elemOffset >= 0 && jobElemDefs[elemIdx].elemOffset + k + 4 <= jobElemValues.Length
      ensures var at := jobElemDefs[elemIdx].elemOffset + k;
              && WordAt(jobElemValues[..], at) == WordAt(added[elemIdx].data, k)
              && IntAt(jobElemValues[..], at) == IntAt(added[elemIdx].data, k)
    {
      assert DefOk(jobElemDefs[..], added, elemIdx);
      FourBytesInLayout(added, elemIdx, k);
      var at := Offset(added, elemIdx) + k;
      assert jobElemValues[..][at..at + 4] == jobElemValues[..|Layout(added)|][at..at + 4];
      ReadsFourBytes(jobElemValues[..], at, Layout(added), at);
    }

    method GetIntValue(elemIdx: nat) returns (intVal: int32)
      requires Valid() && elemIdx < |added| && added[elemIdx].elemType == IntType
      ensures intVal == IntAt(added[elemIdx].data, 0)
    {
      FourBytesBack(elemIdx, 0);
      intVal := IntAt(jobElemValues[..], jobElemDefs[elemIdx].elemOffset);
    }

    method GetFloatValue(elemIdx: nat) returns (floatBits: word)
      requires Valid() && elemIdx < |added| && added[elemIdx].elemType == FloatType
      ensures floatBits == WordAt(added[elemIdx].data, 0)
    {
      FourBytesBack(elemIdx, 0);
      floatBits := WordAt(jobElemValues[..], jobElemDefs[elemIdx].elemOffset);
    }

    method GetFloatArrayValue(elemIdx: nat, arrayIdx: nat) returns (floatBits: word)
      requires Valid() && elemIdx < |added| && added[elemIdx].elemType == FloatArrayType &&
               arrayIdx < added[elemIdx].arrayCount
      ensures floatBits == WordAt(added[elemIdx].data, 4 * arrayIdx)
    {
      FourBytesBack(elemIdx, 4 * arrayIdx);
      floatBits := WordAt(jobElemValues[..], jobElemDefs[elemIdx].elemOffset + 4 * arrayIdx);
    }

    method GetStringValue(elemIdx: nat) returns (result: seq<byte>)
      requires Valid() && elemIdx < |added| && added[elemIdx].elemType == StringType
      ensures result == UpToNul(added[elemIdx].data[..added[elemIdx].arrayCount])
      ensures result <= added[elemIdx].data[..added[elemIdx].arrayCount] && 0 !in result
      ensures |result| < added[elemIdx].arrayCount ==> added[elemIdx].data[|result|] == 0
    {
      assert DefOk(jobElemDefs[..], added, elemIdx);
      CharsInValues(jobElemValues[..], added, elemIdx);
      var def := jobElemDefs[elemIdx];
      result := UpToNul(jobElemValues[def.elemOffset..def.elemOffset + def.arrayCount]);
    }
  }

  method AppendDef(defs: array<JobElemDef>, def: JobElemDef) returns (longer: array<JobElemDef>)
    ensures fresh(longer) && longer[..] == defs[..] + [def]
  {
    longer := new JobElemDef[defs.Length + 1](_ => def);
    for i := 0 to defs.Length
      invariant longer[..i] == defs[..i] && longer[defs.Length] == def
    {
      longer[i] := defs[i];
    }
  }

  /** The new value buffer: a copy of the old one up to size, the length if the element has one, and the data. */
  method AppendValue(oldValues: array<byte>, size: nat, elemType: ElemType, arrayCount: int32, data: array<byte>)
    returns (values: array<byte>)
    requires size <= oldValues.Length && WellFormed(Elem(elemType, arrayCount, data[..]))
    ensures fresh(values) && values.Length == size + PrefixSize(elemType) + data.Length
    ensures var e := Elem(elemType, arrayCount, data[..]);
            size + |Kept(e)| <= values.Length && values[..size + |Kept(e)|] == oldValues[..size] + Kept(e)
  {
    ghost var e := Elem(elemType, arrayCount, data[..]);
    values := new byte[size + PrefixSize(elemType) + CopySize(elemType, arrayCount)](_ => 0);
    CopyBytes(oldValues[..size], values, 0);
    if HasLength(elemType) {
      CopyBytes(IntBytes(arrayCount), values, size);
    }
    CopyBytes(data[..], values, size + PrefixSize(elemType));
    forall i | 0 <= i < size + |Kept(e)| ensures values[i] == (oldValues[..size] + Kept(e))[i] {
    }
  }

  /** memcpy. */
  method CopyBytes(source: seq<byte>, target: array<byte>, at: nat)
    requires at + |source| <= target.Length
    modifies target
    ensures forall k :: 0 <= k < target.Length ==>
            target[k] == if at <= k < at + |source| then source[k - at] else old(target[k])
  {
    for i := 0 to |source|
      invariant forall k :: 0 <= k < target.Length ==>
                target[k] == if at <= k < at + i then source[k - at] else old(target[k])
    {
      target[at + i] := source[i];
    }
  }

  // ---------- Building a Job and reading it back ----------

  /** A value as the callers of addJobElem and of the getters see it; floats are their bit patterns. */
  datatype Item =
    | IntItem(v: int32) | FloatItem(bits: word) | FloatArrayItem(floats: seq<word>) | StringItem(chars: seq<byte>)

  predicate Fits(x: Item) {
    match x
    case FloatArrayItem(floats) => 0 < |floats| < 0x8000_0000
    case StringItem(chars) => 0 < |chars| < 0x8000_0000
    case _ => true
  }

  function FloatBytes(floats: seq<word>): (b: seq<byte>)
    ensures |b| == 4 * |floats|
  {
    if floats == [] then [] else FloatBytes(floats[..|floats| - 1]) + WordBytes(floats[|floats| - 1])
  }

  lemma {:induction false} FloatBack(floats: seq<word>, k: nat)
    requires k < |floats|
    ensures WordAt(FloatBytes(floats), 4 * k) == floats[k]
  {
    var n := |floats| - 1;
    var front := FloatBytes(floats[..n]);
    if k < n {
      FloatBack(floats[..n], k);
      assert FloatBytes(floats)[4 * k..4 * k + 4] == front[4 * k..4 * k + 4];
      ReadsFourBytes(FloatBytes(floats), 4 * k, front, 4 * k);
    } else {
      WordRoundTrip(floats[k]);
      assert FloatBytes(floats)[4 * k..4 * k + 4] == WordBytes(floats[k])[0..4];
      ReadsFourBytes(FloatBytes(floats), 4 * k, WordBytes(floats[k]), 0);
    }
  }

  /** The arguments with which a caller adds an item; strings are passed with their terminating NUL. */
  function ElemOf(x: Item): (e: Elem)
    requires Fits(x)
    ensures WellFormed(e)
  {
    match x
    case IntItem(v) => Elem(IntType, 1, IntBytes(v))
    case FloatItem(bits) => Elem(FloatType, 1, WordBytes(bits))
    case FloatArrayItem(floats) => Elem(FloatArrayType, |floats|, FloatBytes(floats))
    case StringItem(chars) => Elem(StringType, |chars|, chars + [0])
  }

  /** What the getters return for an item: itself, except that a string ends at its first NUL. */
  function ReadBack(x: Item): Item {
    if x.StringItem? then StringItem(UpToNul(x.chars)) else x
  }

  /** Everything comes back unchanged exactly when no string holds a NUL. */
  lemma ReadBackIsIdentity(x: Item)
    ensures ReadBack(x) == x <==> x.StringItem? ==> 0 !in x.chars
  {
    if x.StringItem? {
      StringComesBackWithoutNul(x.chars);
    }
  }

  method AddItem(job: Job, x: Item)
    requires job.Valid() && Fits(x)
    modifies job
    ensures job.Valid() && job.added == old(job.added) + [ElemOf(x)]
    ensures fresh(job.jobElemDefs) && fresh(job.jobElemValues)
  {
    var e := ElemOf(x);
    var data := new byte[|e.data|](i requires 0 <= i < |e.data| => e.data[i]);
    assert data[..] == e.data;
    job.AddJobElem(e.elemType, e.arrayCount, data);
  }

  method ReadFloats(job: Job, i: nat, floats: seq<word>) returns (values: seq<word>)
    requires job.Valid() && i < |job.added| && Fits(FloatArrayItem(floats)) &&
             job.added[i] == ElemOf(FloatArrayItem(floats))
    ensures values == floats
  {
    values := [];
    for k := 0 to |floats|
      invariant values == floats[..k]
    {
      FloatBack(floats, k);
      var value := job.GetFloatArrayValue(i, k);
      values := values + [value];
    }
  }

  method ReadItem(job: Job, i: nat, x: Item) returns (y: Item)
    requires job.Valid() && Fits(x) && i < |job.added| && job.added[i] == ElemOf(x)
    ensures y == ReadBack(x)
  {
    match x {
      case IntItem(v) =>
        IntRoundTrip(v);
        var value := job.GetIntValue(i);
        y := IntItem(value);
      case FloatItem(bits) =>
        WordRoundTrip(bits);
        var value := job.GetFloatValue(i);
        y := FloatItem(value);
      case FloatArrayItem(floats) =>
        var values := ReadFloats(job, i, floats);
        y := FloatArrayItem(values);
      case StringItem(chars) =>
        assert (chars + [0])[..|chars|] == chars;
        var value := job.GetStringValue(i);
        y := StringItem(value);
    }
  }

  /** The items as the arguments with which a caller adds them. */
  function Elems(items: seq<Item>): seq<Elem>
    requires forall i :: 0 <= i < |items| ==> Fits(items[i])
  {
    seq(|items|, i requires 0 <= i < |items| => ElemOf(items[i]))
  }

  function AllReadBack(items: seq<Item>): seq<Item> {
    seq(|items|, i requires 0 <= i < |items| => ReadBack(items[i]))
  }

  method BuildJob(items: seq<Item>) returns (job: Job)
    requires forall i :: 0 <= i < |items| ==> Fits(items[i])
    ensures job.Valid() && job.added == Elems(items) && fresh(job)
  {
    job := new Job();
    for n := 0 to |items|
      invariant fresh(job) && fresh(job.jobElemDefs) && fresh(job.jobElemValues)
      invariant job.Valid() && job.added == Elems(items)[..n]
    {
      AddItem(job, items[n]);
      assert Elems(items)[..n + 1] == Elems(items)[..n] + [ElemOf(items[n])];
    }
  }

  method ReadItems(job: Job, items: seq<Item>) returns (back: seq<Item>)
    requires (forall i :: 0 <= i < |items| ==> Fits(items[i])) && job.Valid() && job.added == Elems(items)
    ensures back == AllReadBack(items)
  {
    back := [];
    for n := 0 to |items|
      invariant |back| == n && forall k :: 0 <= k < n ==> back[k] == ReadBack(items[k])
    {
      var y := ReadItem(job, n, items[n]);
      back := back + [y];
    }
  }

  /** Whatever is added, in whatever order, every getter returns what was added at its index. */
  method BuildAndRead(items: seq<Item>) returns (back: seq<Item>)
    requires forall i :: 0 <= i < |items| ==> Fits(items[i])
    ensures back == AllReadBack(items)
  {
    var job := BuildJob(items);
    back := ReadItems(job, items);
  }
}
