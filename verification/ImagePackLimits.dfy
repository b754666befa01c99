/** For which files every interleaving of the paged image set reads like the flat array. */
module ImagePackLimits {
  import opened Options
  import opened Modular
  import opened ImagePack
  import opened ImagePackRuns

  ghost predicate Ends<C>(f: Files<C>, r: seq<State<C>>, acts: seq<Action>, s: State<C>) {
    Run(f, r, acts) && r[|acts|] == s
  }

  ghost predicate Reachable<C(!new)>(f: Files<C>, s: State<C>) {
    exists r: seq<State<C>>, acts: seq<Action> :: Ends(f, r, acts, s)
  }

  ghost predicate AlwaysRight<C(!new)>(f: Files<C>)
    requires WellFormed(f)
  {
    forall s: State<C> :: Reachable(f, s) ==> AllRight(f, s)
  }

  /** The page after that of an index holds the same at the cell that an access to the index reads. */
  predicate NextAgrees<C(==)>(f: Files<C>, index: nat, isLabel: bool)
    requires WellFormed(f) && index < Count(f) * f.perFile
  {
    Page(f, NextPage(f, PageOf(f, index)))[CellOf(f, index, isLabel)] == Flat(f, index, isLabel)
  }

  /** All pages hold the same at this cell. */
  ghost predicate Common<C>(f: Files<C>, c: nat)
    requires WellFormed(f) && c < 2 * f.perFile
  {
    forall p: nat :: p < Count(f) ==> Page(f, p)[c] == Page(f, 0)[c]
  }

  function IndexAt<C>(f: Files<C>, p: nat, k: nat): (index: nat)
    requires WellFormed(f) && p < Count(f) && k < f.perFile
    ensures index < Count(f) * f.perFile && PageOf(f, index) == p && index - p * f.perFile == k
  {
    Product(p, f.perFile);
    MulMonotone(p + 1, Count(f), f.perFile);
    NextMultiple(p, f.perFile);
    DivModUnique(p * f.perFile + k, f.perFile, p, k);
    p * f.perFile + k
  }

  // ---------- Pages that agree are read right in every run ----------

  lemma {:induction false} AgreeingPageIsCommon<C>(f: Files<C>, p: nat, k: nat, isLabel: bool)
    requires WellFormed(f) && p < Count(f) && k < f.perFile
    requires forall index: nat, l :: index < Count(f) * f.perFile ==> NextAgrees(f, index, l)
    ensures var c := f.setIndices[k] + if isLabel then f.perFile else 0; Page(f, p)[c] == Page(f, 0)[c]
  {
    if p > 0 {
      AgreeingPageIsCommon(f, p - 1, k, isLabel);
      assert NextAgrees(f, IndexAt(f, p - 1, k), isLabel);
    }
  }

  lemma ReadCellIsCommon<C>(f: Files<C>, index: nat, isLabel: bool)
    requires WellFormed(f) && index < Count(f) * f.perFile
    requires forall i: nat, l :: i < Count(f) * f.perFile ==> NextAgrees(f, i, l)
    ensures Common(f, CellOf(f, index, isLabel))
  {
    forall p: nat | p < Count(f)
      ensures var c := CellOf(f, index, isLabel); Page(f, p)[c] == Page(f, 0)[c]
    {
      AgreeingPageIsCommon(f, p, index - PageOf(f, index) * f.perFile, isLabel);
    }
  }

  /** Both pages hold at cell c what all page files hold there. */
  predicate Holds<C(==)>(f: Files<C>, s: State<C>, c: nat)
    requires Shape(f, s) && c < 2 * f.perFile
  {
    s.front[c] == Page(f, 0)[c] && (Count(f) > 1 ==> s.back[c] == Page(f, 0)[c])
  }

  lemma {:induction false} CommonStays<C>(f: Files<C>, r: seq<State<C>>, acts: seq<Action>, i: nat, c: nat)
    requires Run(f, r, acts) && i < |r| && WellFormed(f) && c < 2 * f.perFile && Common(f, c)
    ensures Shape(f, r[i]) && Holds(f, r[i], c)
  {
    if i > 0 {
      CommonStays(f, r, acts, i - 1, c);
      assert Next(f, r[i - 1], r[i], acts[i - 1]);
    }
  }

  lemma {:induction false} RightIfPagesAgree<C>(f: Files<C>, r: seq<State<C>>, acts: seq<Action>, i: nat)
    requires Run(f, r, acts) && i < |r| && WellFormed(f)
    requires forall index: nat, l :: index < Count(f) * f.perFile ==> NextAgrees(f, index, l)
    ensures AllRight(f, r[i])
  {
    if i > 0 {
      RightIfPagesAgree(f, r, acts, i - 1);
      assert Next(f, r[i - 1], r[i], acts[i - 1]);
      if acts[i - 1] == Read {
        var (index, isLabel) := r[i - 1].pending.value;
        ReadCellIsCommon(f, index, isLabel);
        CommonStays(f, r, acts, i - 1, CellOf(f, index, isLabel));
      }
    }
  }

  // ---------- A run that reads a page for the one after it ----------

  lemma Step<C(!new)>(f: Files<C>, s: State<C>, a: Action) returns (s': State<C>)
    requires Reachable(f, s) && Enabled(f, s, a)
    ensures Reachable(f, s') && s' == After(f, s, a)
  {
    var r: seq<State<C>>, acts: seq<Action> :| Ends(f, r, acts, s);
    var r', acts' := ExtendRun(f, r, acts, a);
    s' := After(f, s, a);
    assert Ends(f, r', acts', s');
  }

  /** An access to the next page that finds no loading flag set, and its read. */
  lemma Visit<C(!new)>(f: Files<C>, s: State<C>, index: nat, isLabel: bool, l: LoaderId) returns (s': State<C>)
    requires Reachable(f, s) && Shape(f, s) && Count(f) > 1 && s.pending == None && !s.loading && l !in s.loaders
    requires index < Count(f) * f.perFile && PageOf(f, index) == NextPage(f, s.trainFileIndex)
    ensures Reachable(f, s') && Shape(f, s') && s'.pending == None && !s'.loading
    ensures s'.front == s.back && s'.back == s.front && s'.loaders == s.loaders[l := Created]
    ensures s'.trainFileIndex == PageOf(f, index) && s'.page == NextPage(f, s'.trainFileIndex)
    ensures s'.answers == s.answers + [Answer(index, isLabel, s.back[CellOf(f, index, isLabel)])]
  {
    s' := Step(f, s, Access(index, isLabel, l));
    s' := Step(f, s', Read);
  }

  predicate SameButBack<C(==)>(s: State<C>, s': State<C>) {
    s'.front == s.front && s'.trainFileIndex == s.trainFileIndex && s'.page == s.page && s'.pending == s.pending
  }

  /** A loader copies the rest of its page. */
  lemma {:induction false} CopyRest<C(!new)>(f: Files<C>, s: State<C>, l: LoaderId, p: nat, n: nat)
    returns (s': State<C>)
    requires Reachable(f, s) && Shape(f, s) && p < Count(f) && n <= 2 * f.perFile
    requires l in s.loaders && s.loaders[l] == Loading(p, n) && s.back[..n] == Page(f, p)[..n]
    ensures Reachable(f, s') && Shape(f, s') && SameButBack(s, s') && s'.back == Page(f, p)
    ensures s'.loading == s.loading && s'.loaders == s.loaders[l := Loading(p, 2 * f.perFile)]
    decreases 2 * f.perFile - n
  {
    if n == 2 * f.perFile {
      s' := s;
      assert s.back == s.back[..n] && Page(f, p) == Page(f, p)[..n];
      assert s.loaders == s.loaders[l := Loading(p, n)];
    } else {
      var t := Step(f, s, CopyCell(l));
      assert t.back[..n + 1] == s.back[..n] + [Page(f, p)[n]];
      assert Page(f, p)[..n + 1] == Page(f, p)[..n] + [Page(f, p)[n]];
      s' := CopyRest(f, t, l, p, n + 1);
    }
  }

  /** A created loader starts, copies its page, and ends. */
  lemma FullLoad<C(!new)>(f: Files<C>, s: State<C>, l: LoaderId) returns (s': State<C>)
    requires Reachable(f, s) && Shape(f, s) && l in s.loaders && s.loaders[l] == Created && s.page < Count(f)
    ensures Reachable(f, s') && Shape(f, s') && SameButBack(s, s') && s'.back == Page(f, s.page)
    ensures !s'.loading && s'.loaders == s.loaders - {l}
  {
    s' := Step(f, s, StartLoad(l));
    s' := CopyRest(f, s', l, s.page, 0);
    s' := Step(f, s', EndLoad(l));
    assert s'.loaders == s.loaders - {l};
  }

  /** Page p in front, the next one behind, and nothing under way. */
  predicate Clean<C(==)>(f: Files<C>, s: State<C>, p: nat) {
    && Shape(f, s) && p < Count(f) && s.front == Page(f, p) && s.back == Page(f, NextPage(f, p))
    && s.trainFileIndex == p && s.pending == None && !s.loading && s.loaders == map[]
  }

  lemma {:induction false} CleanReachable<C(!new)>(f: Files<C>, p: nat) returns (s: State<C>)
    requires WellFormed(f) && 1 < Count(f) && p < Count(f)
    ensures Reachable(f, s) && Clean(f, s, p)
  {
    if p == 0 {
      s := State(Page(f, 0), Page(f, 1), 0, false, 0, map[], None, []);
      assert Ends(f, [s], [], s);
    } else {
      s := CleanReachable(f, p - 1);
      s := Visit(f, s, IndexAt(f, p, 0), false, 0);
      s := FullLoad(f, s, 0);
    }
  }

  /** Two loaders are created before the first starts; the second is served, and the first is left with page p. */
  lemma StaleLoader<C(!new)>(f: Files<C>, p: nat) returns (s: State<C>)
    requires WellFormed(f) && 1 < Count(f) && p < Count(f)
    ensures Reachable(f, s) && Shape(f, s) && NextPage(f, s.trainFileIndex) == p && s.pending == None && !s.loading
    ensures s.back == Page(f, p) && s.loaders == map[0 := Loading(p, 0)]
  {
    var second := PrevPage(f, p);
    var first := PrevPage(f, second);
    s := CleanReachable(f, PrevPage(f, first));
    s := Visit(f, s, IndexAt(f, first, 0), false, 0);
    s := Visit(f, s, IndexAt(f, second, 0), false, 1);
    s := Step(f, s, StartLoad(0));
    s := FullLoad(f, s, 1);
  }

  /** It copies page p behind after the page that follows p has been loaded there. */
  lemma StalePageBehind<C(!new)>(f: Files<C>, p: nat) returns (s: State<C>)
    requires WellFormed(f) && 1 < Count(f) && p < Count(f)
    ensures Reachable(f, s) && Shape(f, s) && s.trainFileIndex == p && s.pending == None && !s.loading
    ensures s.back == Page(f, p) && 1 !in s.loaders
  {
    s := StaleLoader(f, p);
    s := Visit(f, s, IndexAt(f, p, 0), false, 1);
    s := FullLoad(f, s, 1);
    s := CopyRest(f, s, 0, p, 0);
  }

  lemma WrongIfPagesDiffer<C(!new)>(f: Files<C>, index: nat, isLabel: bool)
    requires WellFormed(f) && index < Count(f) * f.perFile && !NextAgrees(f, index, isLabel)
    ensures !AlwaysRight(f)
  {
    var p := PageOf(f, index);
    var s := StalePageBehind(f, p);
    var next := IndexAt(f, NextPage(f, p), index - p * f.perFile);
    assert CellOf(f, next, isLabel) == CellOf(f, index, isLabel);
    var s' := Visit(f, s, next, isLabel, 1);
    assert !Right(f, s'.answers[|s.answers|]);
  }

  /**
   * Every interleaving reads like the flat array exactly if every access would read the same from the page after its
   * own, that is, if the files are all alike.
   */
  lemma AlwaysRightExactlyIfPagesAgree<C(!new)>(f: Files<C>)
    requires WellFormed(f)
    ensures AlwaysRight(f) <==>
            forall index: nat, isLabel :: index < Count(f) * f.perFile ==> NextAgrees(f, index, isLabel)
  {
    if forall index: nat, isLabel :: index < Count(f) * f.perFile ==> NextAgrees(f, index, isLabel) {
      forall s: State<C> | Reachable(f, s) ensures AllRight(f, s) {
        var r: seq<State<C>>, acts: seq<Action> :| Ends(f, r, acts, s);
        RightIfPagesAgree(f, r, acts, |acts|);
      }
    } else {
      var index: nat, isLabel :| index < Count(f) * f.perFile && !NextAgrees(f, index, isLabel);
      WrongIfPagesDiffer(f, index, isLabel);
    }
  }
}
