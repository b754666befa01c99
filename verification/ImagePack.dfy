/** The paged image set: a front page being read, and a back page that a loader thread fills with the next one. */
module ImagePack {
  import opened Options
  import opened Modular

  /** A page file holds the images of its samples, and then their labels. */
  datatype Files<!C> = Files(
    pages: seq<seq<C>>,      // by file number
    order: seq<nat>,         // trainFileIndices
    setIndices: seq<nat>,    // trainSetIndices
    perFile: nat)            // numImagesInTrainFile

  /** Equal-sized files, and index vectors within range. */
  predicate WellFormed<C>(f: Files<C>) {
    && f.perFile > 0 && |f.pages| > 0 && |f.order| == |f.pages| && |f.setIndices| == f.perFile
    && (forall k :: 0 <= k < |f.pages| ==> |f.pages[k]| == 2 * f.perFile)
    && (forall k :: 0 <= k < |f.order| ==> f.order[k] < |f.pages|)
    && (forall k :: 0 <= k < |f.setIndices| ==> f.setIndices[k] < f.perFile)
  }

  function Count<C>(f: Files<C>): nat {
    |f.order|
  }

  function Page<C>(f: Files<C>, p: nat): seq<C>
    requires WellFormed(f) && p < Count(f)
  {
    f.pages[f.order[p]]
  }

  /** (p + 1) % numTrainFile for a valid page. */
  function NextPage<C>(f: Files<C>, p: nat): (q: nat)
    requires WellFormed(f) && p < Count(f)
    ensures q < Count(f) && q == (p + 1) % Count(f)
  {
    if p + 1 < Count(f) then
      p + 1
    else
      assert (p + 1) % Count(f) == 0 by { DivModUnique(p + 1, Count(f), 1, 0); }
      0
  }

  function PrevPage<C>(f: Files<C>, p: nat): (q: nat)
    requires WellFormed(f) && p < Count(f)
    ensures q < Count(f) && NextPage(f, q) == p
  {
    if p == 0 then Count(f) - 1 else p - 1
  }

  function PageOf<C>(f: Files<C>, index: nat): (p: nat)
    requires WellFormed(f) && index < Count(f) * f.perFile
    ensures p < Count(f) && p * f.perFile <= index < p * f.perFile + f.perFile
  {
    assert index == f.perFile * (index / f.perFile) + index % f.perFile;
    PageInRange(index / f.perFile, Count(f), f.perFile, index);
    index / f.perFile
  }

  lemma MulMonotone(a: nat, b: nat, c: nat)
    ensures a <= b ==> a * c <= b * c
  {
    if a <= b {
      assert (b - a) * c >= 0;
    }
  }

  lemma PageInRange(p: nat, n: nat, per: nat, index: nat)
    requires p * per <= index < n * per
    ensures p < n
  {
    MulMonotone(n, p, per);
  }

  /** Which cell of a page an access reads. */
  function CellOf<C>(f: Files<C>, index: nat, isLabel: bool): (c: nat)
    requires WellFormed(f) && index < Count(f) * f.perFile
    ensures c < 2 * f.perFile
  {
    f.setIndices[index - PageOf(f, index) * f.perFile] + if isLabel then f.perFile else 0
  }

  /** The simple specification: all files in page order, as one array. */
  function Flat<C>(f: Files<C>, index: nat, isLabel: bool): C
    requires WellFormed(f) && index < Count(f) * f.perFile
  {
    Page(f, PageOf(f, index))[CellOf(f, index, isLabel)]
  }

  // ---------- The object, with its loader run to completion ----------

  class ImagePackDataSet<C(0)> {
    const files: Files<C>
    var frontTrain: array<C>
    var backTrain: array<C>
    var trainFileIndex: nat
    var toLoad: Option<nat> // the page a started loader thread was given

    ghost predicate Valid()
      reads this, frontTrain, backTrain
    {
      && WellFormed(files) && trainFileIndex < Count(files) && frontTrain != backTrain
      && frontTrain.Length == backTrain.Length == 2 * files.perFile
      && frontTrain[..] == Page(files, trainFileIndex)
      && (Count(files) > 1 ==>
            if toLoad.Some? then toLoad.value == NextPage(files, trainFileIndex)
            else backTrain[..] == Page(files, NextPage(files, trainFileIndex)))
      && (Count(files) == 1 ==> toLoad == None)
    }

    /** load(): page 0 is read and becomes the front, and page 1 is read into the back. */
    constructor Load(files: Files<C>)
      requires WellFormed(files)
      ensures Valid() && this.files == files && trainFileIndex == 0 && toLoad == None && fresh(frontTrain) &&
              fresh(backTrain)
    {
      this.files := files;
      trainFileIndex, toLoad := 0, None;
      var front := new C[2 * files.perFile];
      var back := new C[2 * files.perFile];
      frontTrain, backTrain := front, back;
      new;
      LoadPage(files, back, 0);
      frontTrain, backTrain := back, front;
      if Count(files) > 1 {
        LoadPage(files, front, 1);
      }
    }

    static method LoadPage(files: Files<C>, target: array<C>, page: nat)
      requires WellFormed(files) && page < Count(files) && target.Length == 2 * files.perFile
      modifies target
      ensures target[..] == Page(files, page)
    {
      var shuffledPage := files.order[page];
      for i := 0 to files.perFile
        invariant target[..i] == files.pages[shuffledPage][..i]
      {
        target[i] := files.pages[shuffledPage][i];
      }
      for i := files.perFile to 2 * files.perFile
        invariant target[..i] == files.pages[shuffledPage][..i]
      {
        target[i] := files.pages[shuffledPage][i];
      }
    }

    /** What the loader thread does. */
    method RunLoader()
      requires Valid() && toLoad.Some?
      modifies `toLoad, backTrain
      ensures Valid() && toLoad == None && trainFileIndex == old(trainFileIndex)
    {
      LoadPage(files, backTrain, toLoad.value);
      toLoad := None;
    }

    /**
     * getTrainDataAt and getTrainLabelAt, without a loader under way. None stands for exit(1): a bad index, or a page
     * that is neither the current nor the next.
     */
    method GetTrainAt(index: int, isLabel: bool) returns (value: Option<C>)
      requires Valid() && toLoad == None
      modifies `frontTrain, `backTrain, `trainFileIndex, `toLoad
      ensures Valid()
      ensures value == None <==> !(0 <= index < Count(files) * files.perFile && NearPage(old(trainFileIndex), index))
      ensures value.Some? ==> value.value == Flat(files, index, isLabel) && trainFileIndex == PageOf(files, index)
    {
      if index >= Count(files) * files.perFile || index < 0 {
        return None;
      }
      var reqPage := PageOf(files, index);
      var nextPage := NextPage(files, trainFileIndex);
      if reqPage != trainFileIndex && reqPage != nextPage {
        return None;
      }
      if Count(files) > 1 && reqPage == nextPage {
        frontTrain, backTrain := backTrain, frontTrain;
        toLoad := Some(NextPage(files, reqPage));
        trainFileIndex := reqPage;
      }
      value := Some(frontTrain[CellOf(files, index, isLabel)]);
    }

    ghost predicate NearPage(current: nat, index: nat)
      requires WellFormed(files) && current < Count(files) && index < Count(files) * files.perFile
    {
      PageOf(files, index) == current || PageOf(files, index) == NextPage(files, current)
    }
  }
}

/** The reading thread and its loader threads, interleaved cell by cell. */
module ImagePackRuns {
  import opened Options
  import opened ImagePack

  type LoaderId = nat

  /** A loader has been created, or has set the loading flag and copied some cells. */
  datatype Loader = Created | Loading(page: nat, copied: nat)

  /** One value read: which index was asked for, whether for the label, and what came back. */
  datatype Answer<C> = Answer(index: nat, isLabel: bool, value: C)

  /** page is threadArg.page; pending is an access that has passed its swap and has not read yet; answers is history. */
  datatype State<C> = State(
    front: seq<C>,
    back: seq<C>,
    trainFileIndex: nat,
    loading: bool,
    page: nat,
    loaders: map<LoaderId, Loader>,
    pending: Option<(nat, bool)>,
    answers: seq<Answer<C>>)

  /** After load(). */
  predicate Init<C(==)>(f: Files<C>, s: State<C>) {
    && WellFormed(f) && s.front == Page(f, 0) && |s.back| == 2 * f.perFile
    && (Count(f) > 1 ==> s.back == Page(f, 1))
    && s.trainFileIndex == 0 && !s.loading && s.loaders == map[] && s.pending == None && s.answers == []
  }

  /** The reader asks for an element; an access that swaps first waits until loading is false, and creates loader l. */
  datatype Action =
    | Access(index: nat, isLabel: bool, l: LoaderId) | Read
    | StartLoad(l: LoaderId) | CopyCell(l: LoaderId) | EndLoad(l: LoaderId)

  predicate Shape<C>(f: Files<C>, s: State<C>) {
    && WellFormed(f) && |s.front| == |s.back| == 2 * f.perFile && s.trainFileIndex < Count(f)
    && (s.pending.Some? ==> s.pending.value.0 < Count(f) * f.perFile)
  }

  predicate NearPage<C>(f: Files<C>, s: State<C>, index: nat)
    requires Shape(f, s)
  {
    index < Count(f) * f.perFile
    && (PageOf(f, index) == s.trainFileIndex || PageOf(f, index) == NextPage(f, s.trainFileIndex))
  }

  predicate Swaps<C>(f: Files<C>, s: State<C>, index: nat)
    requires Shape(f, s) && index < Count(f) * f.perFile
  {
    Count(f) > 1 && PageOf(f, index) == NextPage(f, s.trainFileIndex)
  }

  predicate Enabled<C>(f: Files<C>, s: State<C>, a: Action) {
    && Shape(f, s)
    && match a
       case Access(index, _, l) =>
         && s.pending == None && NearPage(f, s, index)
         && (Swaps(f, s, index) ==> !s.loading && l !in s.loaders)
       case Read => s.pending.Some?
       case StartLoad(l) => l in s.loaders && s.loaders[l] == Created && s.page < Count(f)
       case CopyCell(l) =>
         && l in s.loaders && s.loaders[l].Loading? && s.loaders[l].page < Count(f) &&
            s.loaders[l].copied < 2 * f.perFile
       case EndLoad(l) => l in s.loaders && s.loaders[l].Loading? && s.loaders[l].copied == 2 * f.perFile
  }

  /** The loader goes through the back pointer at every cell, so it follows a swap. */
  function After<C>(f: Files<C>, s: State<C>, a: Action): State<C>
    requires Enabled(f, s, a)
  {
    match a
    case Access(index, isLabel, l) =>
      var s' := s.(pending := Some((index, isLabel)));
      if Swaps(f, s, index) then
        s'.(front := s.back, back := s.front, page := NextPage(f, PageOf(f, index)), loaders := s.loaders[l := Created])
      else s'
    case Read =>
      var (index, isLabel) := s.pending.value;
      s.(trainFileIndex := PageOf(f, index), pending := None,
         answers := s.answers + [Answer(index, isLabel, s.front[CellOf(f, index, isLabel)])])
    case StartLoad(l) => s.(loading := true, loaders := s.loaders[l := Loading(s.page, 0)])
    case CopyCell(l) =>
      var Loading(p, n) := s.loaders[l];
      s.(back := s.back[n := Page(f, p)[n]], loaders := s.loaders[l := Loading(p, n + 1)])
    case EndLoad(l) => s.(loading := false, loaders := s.loaders - {l})
  }

  predicate Next<C(==)>(f: Files<C>, s: State<C>, s': State<C>, a: Action) {
    Enabled(f, s, a) && s' == After(f, s, a)
  }

  ghost predicate Run<C>(f: Files<C>, r: seq<State<C>>, acts: seq<Action>) {
    && |r| == |acts| + 1 && Init(f, r[0])
    && forall i :: 0 <= i < |acts| ==> Next(f, r[i], r[i + 1], acts[i])
  }

  /** An access swaps while a loader has been created and has not yet set the loading flag. */
  predicate Races<C>(f: Files<C>, s: State<C>, a: Action) {
    a.Access? && Shape(f, s) && NearPage(f, s, a.index) && Swaps(f, s, a.index) && s.loaders != map[] && !s.loading
  }

  /** The page that front stands for: the next one between a swap and the update of trainFileIndex. */
  function FrontPage<C>(f: Files<C>, s: State<C>): nat
    requires Shape(f, s)
  {
    if s.pending.Some? then PageOf(f, s.pending.value.0) else s.trainFileIndex
  }

  predicate LoaderOk<C(==)>(f: Files<C>, s: State<C>, l: LoaderId)
    requires Shape(f, s)
  {
    && (forall k :: k in s.loaders ==> k == l)
    && (l !in s.loaders ==> !s.loading && (Count(f) > 1 ==> s.back == Page(f, NextPage(f, FrontPage(f, s)))))
    && (l in s.loaders ==>
          && Count(f) > 1
          && match s.loaders[l]
             case Created =>
               && !s.loading && s.page == NextPage(f, FrontPage(f, s))
               && s.back == Page(f, PrevPage(f, FrontPage(f, s)))
             case Loading(p, n) =>
               s.loading && p == NextPage(f, FrontPage(f, s)) && n <= 2 * f.perFile && s.back[..n] == Page(f, p)[..n])
  }

  /** The value is the one that the flat array holds. */
  predicate Right<C(==)>(f: Files<C>, q: Answer<C>)
    requires WellFormed(f)
  {
    q.index < Count(f) * f.perFile && q.value == Flat(f, q.index, q.isLabel)
  }

  predicate AllRight<C(==)>(f: Files<C>, s: State<C>)
    requires WellFormed(f)
  {
    forall k :: 0 <= k < |s.answers| ==> Right(f, s.answers[k])
  }

  /** Front holds the current page, and back holds the next one or is about to. */
  ghost predicate Inv<C>(f: Files<C>, s: State<C>, l: LoaderId) {
    Shape(f, s) && s.front == Page(f, FrontPage(f, s)) && LoaderOk(f, s, l) && AllRight(f, s)
  }

  lemma AccessInv<C>(f: Files<C>, s: State<C>, a: Action, l: LoaderId)
    requires Inv(f, s, l) && a.Access? && Enabled(f, s, a) && !Races(f, s, a)
    ensures Inv(f, After(f, s, a), if Swaps(f, s, a.index) then a.l else l)
  {
    assert l in s.loaders || s.loaders == map[];
  }

  lemma ReadInv<C>(f: Files<C>, s: State<C>, a: Action, l: LoaderId)
    requires Inv(f, s, l) && a == Read && Enabled(f, s, a)
    ensures Inv(f, After(f, s, a), l)
  {
  }

  lemma LoadInv<C>(f: Files<C>, s: State<C>, a: Action, l: LoaderId)
    requires Inv(f, s, l) && (a.StartLoad? || a.CopyCell? || a.EndLoad?) && Enabled(f, s, a)
    ensures Inv(f, After(f, s, a), l)
  {
  }

  ghost predicate RaceFree<C>(f: Files<C>, r: seq<State<C>>, acts: seq<Action>, i: nat)
    requires i <= |acts| < |r|
  {
    forall j :: 0 <= j < i ==> !Races(f, r[j], acts[j])
  }

  lemma {:induction false} RunInv<C>(f: Files<C>, r: seq<State<C>>, acts: seq<Action>, i: nat) returns (l: LoaderId)
    requires Run(f, r, acts) && i < |r| && RaceFree(f, r, acts, i)
    ensures Inv(f, r[i], l)
  {
    if i == 0 {
      l := 0;
    } else {
      l := RunInv(f, r, acts, i - 1);
      var s, a := r[i - 1], acts[i - 1];
      assert Next(f, s, r[i], a);
      match a {
        case Access(_, _, _) =>
          AccessInv(f, s, a, l);
          l := if Swaps(f, s, a.index) then a.l else l;
        case Read => ReadInv(f, s, a, l);
        case _ => LoadInv(f, s, a, l);
      }
    }
  }

  /**
   * Every value read is the one the flat array holds, if no access swaps before the loader created last has set its
   * flag.
   */
  lemma ReadsLikeFlatArray<C>(f: Files<C>, r: seq<State<C>>, acts: seq<Action>, i: nat, k: nat)
    requires Run(f, r, acts) && i < |r| && RaceFree(f, r, acts, i) && k < |r[i].answers|
    ensures var q := r[i].answers[k];
            && WellFormed(f) && q.index < Count(f) * f.perFile
            && var page, image := q.index / f.perFile, q.index % f.perFile;
               && 0 <= page < |f.order| && 0 <= image < |f.setIndices|
               && q.value == f.pages[f.order[page]][f.setIndices[image] + if q.isLabel then f.perFile else 0]
  {
    var l := RunInv(f, r, acts, i);
    var index := r[i].answers[k].index;
    assert PageOf(f, index) == index / f.perFile;
    assert index == f.perFile * (index / f.perFile) + index % f.perFile;
  }

  /** While an access has swapped and not read yet, no loader touches the front page. */
  lemma {:induction false} FrontStays<C>(f: Files<C>, r: seq<State<C>>, acts: seq<Action>, i: nat, j: nat)
    requires Run(f, r, acts) && i <= j < |r| && r[i].pending.Some? && forall k :: i <= k < j ==> acts[k] != Read
    ensures r[j].front == r[i].front && r[j].pending == r[i].pending && r[j].answers == r[i].answers
    ensures r[j].trainFileIndex == r[i].trainFileIndex
  {
    if i < j {
      FrontStays(f, r, acts, i, j - 1);
      assert Next(f, r[j - 1], r[j], acts[j - 1]);
    }
  }

  /** Read number j is the one that serves access number i. */
  predicate Serves(acts: seq<Action>, i: nat, j: nat) {
    i < j < |acts| && acts[j] == Read && forall k :: i < k < j ==> acts[k] != Read
  }

  predicate OppositePagesAgree<C(==)>(f: Files<C>, current: nat, c: nat)
    requires WellFormed(f) && current < Count(f) && c < 2 * f.perFile
  {
    Page(f, PrevPage(f, current))[c] == Page(f, NextPage(f, current))[c]
  }

  /**
   * The first access that swaps too early reads the page before the current one instead of the one after it,
   * whatever the loaders do meanwhile, so it is right exactly if the two pages agree there.
   */
  lemma TooEarlySwapReadsPreviousPage<C>(f: Files<C>, r: seq<State<C>>, acts: seq<Action>, i: nat, j: nat)
    requires Run(f, r, acts) && Serves(acts, i, j) && RaceFree(f, r, acts, i) && Races(f, r[i], acts[i])
    ensures |r[j + 1].answers| == |r[i].answers| + 1
    ensures r[i].trainFileIndex < Count(f) && acts[i].index < Count(f) * f.perFile
    ensures var q, current := r[j + 1].answers[|r[i].answers|], r[i].trainFileIndex;
            && q.index == acts[i].index && q.isLabel == acts[i].isLabel
            && PageOf(f, q.index) == NextPage(f, current)
            && q.value == Page(f, PrevPage(f, current))[CellOf(f, q.index, q.isLabel)]
            && (Right(f, q) <==> OppositePagesAgree(f, current, CellOf(f, q.index, q.isLabel)))
  {
    var l := RunInv(f, r, acts, i);
    assert Next(f, r[i], r[i + 1], acts[i]) && Next(f, r[j], r[j + 1], acts[j]);
    var k :| k in r[i].loaders;
    assert k == l;
    FrontStays(f, r, acts, i + 1, j);
  }

  // ---------- Which runs read like the flat array ----------

  lemma FirstRace<C>(f: Files<C>, r: seq<State<C>>, acts: seq<Action>, n: nat) returns (i: nat)
    requires n < |acts| < |r| && Races(f, r[n], acts[n])
    ensures i <= n && Races(f, r[i], acts[i]) && RaceFree(f, r, acts, i)
  {
    i := 0;
    while !Races(f, r[i], acts[i])
      invariant i <= n && RaceFree(f, r, acts, i)
      decreases n - i
    {
      i := i + 1;
    }
  }

  lemma FirstRead(acts: seq<Action>, i: nat, n: nat) returns (j: nat)
    requires i < n < |acts| && acts[n] == Read
    ensures j <= n && Serves(acts, i, j)
  {
    j := i + 1;
    while acts[j] != Read
      invariant i < j <= n && forall k :: i < k < j ==> acts[k] != Read
      decreases n - j
    {
      j := j + 1;
    }
  }

  /** Answers are history: none is ever changed or removed. */
  lemma {:induction false} AnswersGrow<C>(f: Files<C>, r: seq<State<C>>, acts: seq<Action>, i: nat, j: nat)
    requires Run(f, r, acts) && i <= j < |r|
    ensures r[i].answers <= r[j].answers
  {
    if i < j {
      AnswersGrow(f, r, acts, i, j - 1);
      assert Next(f, r[j - 1], r[j], acts[j - 1]);
    }
  }

  /** No access that swaps too early has been answered. */
  ghost predicate NoEarlyAnswer<C>(f: Files<C>, r: seq<State<C>>, acts: seq<Action>)
    requires |acts| < |r|
  {
    forall i, j :: 0 <= i < j < |acts| && Races(f, r[i], acts[i]) ==> acts[j] != Read
  }

  /** An access that swaps too early asks for an entry in which the two pages differ. */
  predicate Tells<C(==)>(f: Files<C>, s: State<C>, a: Action) {
    Races(f, s, a) ==> !OppositePagesAgree(f, s.trainFileIndex, CellOf(f, a.index, a.isLabel))
  }

  lemma RightWithoutEarlyAnswer<C>(f: Files<C>, r: seq<State<C>>, acts: seq<Action>)
    requires Run(f, r, acts) && WellFormed(f) && NoEarlyAnswer(f, r, acts)
    ensures AllRight(f, r[|acts|])
  {
    if RaceFree(f, r, acts, |acts|) {
      var l := RunInv(f, r, acts, |acts|);
    } else {
      var n: nat :| n < |acts| && Races(f, r[n], acts[n]);
      var i := FirstRace(f, r, acts, n);
      var l := RunInv(f, r, acts, i);
      assert Next(f, r[i], r[i + 1], acts[i]);
      FrontStays(f, r, acts, i + 1, |acts|);
    }
  }

  lemma WrongWithEarlyAnswer<C>(f: Files<C>, r: seq<State<C>>, acts: seq<Action>, n: nat, m: nat)
    requires Run(f, r, acts) && WellFormed(f) && n < m < |acts| && Races(f, r[n], acts[n]) && acts[m] == Read
    requires forall i :: 0 <= i < |acts| ==> Tells(f, r[i], acts[i])
    ensures !AllRight(f, r[|acts|])
  {
    var i := FirstRace(f, r, acts, n);
    var j := FirstRead(acts, i, m);
    assert Tells(f, r[i], acts[i]);
    TooEarlySwapReadsPreviousPage(f, r, acts, i, j);
    AnswersGrow(f, r, acts, j + 1, |acts|);
    assert !Right(f, r[|acts|].answers[|r[i].answers|]);
  }

  /**
   * Unless an access that swaps too early asks for an entry in which the two pages happen to agree, the answers of a
   * run are all right exactly if none of them is to such an access.
   */
  lemma RightExactlyUnlessTooEarly<C>(f: Files<C>, r: seq<State<C>>, acts: seq<Action>)
    requires Run(f, r, acts) && WellFormed(f)
    requires forall i :: 0 <= i < |acts| ==> Tells(f, r[i], acts[i])
    ensures AllRight(f, r[|acts|]) <==> NoEarlyAnswer(f, r, acts)
  {
    if NoEarlyAnswer(f, r, acts) {
      RightWithoutEarlyAnswer(f, r, acts);
    } else {
      var n: nat, m: nat :| n < m < |acts| && Races(f, r[n], acts[n]) && acts[m] == Read;
      WrongWithEarlyAnswer(f, r, acts, n, m);
    }
  }

  // ---------- A run that reads a wrong image ----------

  lemma ExtendRun<C>(f: Files<C>, r: seq<State<C>>, acts: seq<Action>, a: Action)
    returns (r': seq<State<C>>, acts': seq<Action>)
    requires Run(f, r, acts) && Enabled(f, r[|acts|], a)
    ensures Run(f, r', acts') && acts' == acts + [a] && r'[|acts'|] == After(f, r[|acts|], a)
  {
    r', acts' := r + [After(f, r[|acts|], a)], acts + [a];
  }

  /** An access together with its read. */
  lemma AccessAndRead<C>(f: Files<C>, r: seq<State<C>>, acts: seq<Action>, a: Action)
    returns (r': seq<State<C>>, acts': seq<Action>)
    requires Run(f, r, acts) && a.Access? && Enabled(f, r[|acts|], a)
    ensures Run(f, r', acts') && acts' == acts + [a, Read]
    ensures var s := After(f, r[|acts|], a); s.pending.Some? && Shape(f, s) && r'[|acts'|] == After(f, s, Read)
  {
    r', acts' := ExtendRun(f, r, acts, a);
    r', acts' := ExtendRun(f, r', acts', Read);
  }

  function ThreeFiles(): (f: Files<int>)
    ensures WellFormed(f) && Count(f) == 3 && f.perFile == 1
    ensures PageOf(f, 1) == 1 && PageOf(f, 2) == 2 && CellOf(f, 1, false) == CellOf(f, 2, false) == 0
  {
    var f := Files([[10, 0], [11, 1], [12, 2]], [0, 1, 2], [0], 1);
    assert PageOf(f, 1) == 1 && PageOf(f, 2) == 2;
    f
  }

  lemma RunToFirstImage() returns (r: seq<State<int>>, acts: seq<Action>)
    ensures Run(ThreeFiles(), r, acts) && acts == [Access(1, false, 0), Read]
    ensures r[2] == State([11, 1], [10, 0], 1, false, 2, map[0 := Created], None, [Answer(1, false, 11)])
  {
    var f := ThreeFiles();
    r, acts := [State(Page(f, 0), Page(f, 1), 0, false, 0, map[], None, [])], [];
    r, acts := AccessAndRead(f, r, acts, Access(1, false, 0));
  }

  /**
   * Three files of one image each: reading images 1 and 2 in turn, before the first loader has started, gives image 0
   * for image 2.
   */
  lemma TooEarlySwapCanReadWrongImage() returns (r: seq<State<int>>, acts: seq<Action>)
    ensures Run(ThreeFiles(), r, acts) && acts == [Access(1, false, 0), Read, Access(2, false, 1), Read]
    ensures r[4].answers == [Answer(1, false, 11), Answer(2, false, 10)] && Flat(ThreeFiles(), 2, false) == 12
  {
    r, acts := RunToFirstImage();
    r, acts := AccessAndRead(ThreeFiles(), r, acts, Access(2, false, 1));
  }
}
