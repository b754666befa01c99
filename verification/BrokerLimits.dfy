/** Where the broker fails: exactly when a subscribe can abort, and exactly when it can wrongly find no session. */
module BrokerLimits {
  import opened Options
  import opened BrokerTables
  import opened BrokerProtocol
  import opened BrokerSubscriber

  // ---------- A run in which a first subscriber waits for key k and content c is published ----------

  /** There is a session whose ID does not read as "none". */
  predicate UsableSession(cfg: Config) {
    cfg.count > 1 || (cfg.count == 1 && cfg.starts != 0)
  }

  lemma UsableSessionMeaning(cfg: Config)
    ensures UsableSession(cfg) <==> exists x :: cfg.ValidSess(x) && x != 0
  {
    if UsableSession(cfg) {
      assert cfg.ValidSess(cfg.starts) && cfg.ValidSess(cfg.starts + cfg.count - 1);
    }
  }

  /** Nothing is published or awaited; if the first session has the ID 0, a subscriber of another key has lost it. */
  function Base(cfg: Config, k: Key): State
    requires cfg.count > 0
  {
    var free := InitTables(cfg).free;
    if free[0] == 0 then
      var loser := Subscriber(k + 1, Blocking, Some(0), Some(NoSession), SubDone);
      State(Tables(map[], map[], {}, free[1..]), None, {}, map[], map[2 := loser])
    else
      State(InitTables(cfg), None, {}, map[], map[])
  }

  /** Subscriber 0 has registered for key k on session x. */
  function FirstWaits(b: State, k: Key, x: SessId, rest: seq<SessId>): State {
    b.(tables := Tables(map[], map[k := x], {}, rest),
       subs := b.subs[0 := Subscriber(k, Blocking, Some(x), None, Check)])
  }

  /** Publisher 0 has published c under key k and marked session x. */
  function FirstMarked(b: State, k: Key, c: Content, x: SessId, rest: seq<SessId>): State {
    FirstWaits(b, k, x, rest).(
      tables := Tables(map[k := c], map[], {x}, rest), pubs := map[0 := Publisher(k, c, x, Notify)])
  }

  /** Subscriber 0 has returned with the content, through the wait. */
  function FirstReturned(b: State, k: Key, c: Content, x: SessId, rest: seq<SessId>): State {
    FirstMarked(b, k, c, x, rest).(
      tables := Tables(map[k := c], map[], {}, rest + [x]),
      subs := b.subs[0 := Subscriber(k, Blocking, None, Some(Got(c, true)), SubDone)])
  }

  lemma RunToBase(cfg: Config, k: Key) returns (r: seq<State>, acts: seq<Action>)
    requires UsableSession(cfg)
    ensures Run(cfg, r, acts) && cfg.count > 0 && r[|acts|] == Base(cfg, k)
    ensures var b := Base(cfg, k); b.tables.free != [] && b.tables.free[0] != 0 && 0 !in b.subs && 1 !in b.subs
  {
    r, acts := [State(InitTables(cfg), None, {}, map[], map[])], [];
    if cfg.starts == 0 {
      r, acts := ExtendRun(cfg, r, acts, NewSubscribe(2, k + 1, Blocking));
      r, acts := ExtendRun(cfg, r, acts, DoLookup(2));
      r, acts := ExtendRun(cfg, r, acts, DoGetSess(2));
    }
  }

  lemma RunToFirstWaits(cfg: Config, k: Key) returns (r: seq<State>, acts: seq<Action>, x: SessId, rest: seq<SessId>)
    requires UsableSession(cfg)
    ensures Run(cfg, r, acts) && cfg.count > 0 && r[|acts|] == FirstWaits(Base(cfg, k), k, x, rest)
  {
    r, acts := RunToBase(cfg, k);
    x, rest := Base(cfg, k).tables.free[0], Base(cfg, k).tables.free[1..];
    r, acts := ExtendRun(cfg, r, acts, NewSubscribe(0, k, Blocking));
    r, acts := ExtendRun(cfg, r, acts, DoLookup(0));
    r, acts := ExtendRun(cfg, r, acts, DoGetSess(0));
    r, acts := ExtendRun(cfg, r, acts, DoRegister(0));
    r, acts := ExtendRun(cfg, r, acts, DoUnlock(0));
  }

  lemma RunToFirstMarked(cfg: Config, k: Key, c: Content)
    returns (r: seq<State>, acts: seq<Action>, x: SessId, rest: seq<SessId>)
    requires UsableSession(cfg)
    ensures Run(cfg, r, acts) && cfg.count > 0 && r[|acts|] == FirstMarked(Base(cfg, k), k, c, x, rest)
  {
    r, acts, x, rest := RunToFirstWaits(cfg, k);
    r, acts := ExtendRun(cfg, r, acts, NewPublish(0, k, c));
    r, acts := ExtendRun(cfg, r, acts, DoStore(0));
    r, acts := ExtendRun(cfg, r, acts, DoClaim(0));
    r, acts := ExtendRun(cfg, r, acts, DoMark(0));
  }

  /** For every key and content: a delivery through the wait, which leaves the content in the map. */
  lemma WaitedDeliveryRun(cfg: Config, k: Key, c: Content) returns (r: seq<State>, acts: seq<Action>)
    requires UsableSession(cfg)
    ensures Run(cfg, r, acts)
    ensures var last := r[|acts|];
            && 0 in last.subs && last.subs[0].key == k && last.subs[0].pc == SubDone
            && last.subs[0].result == Some(Got(c, true)) && k in last.tables.contentMap
  {
    var x, rest;
    r, acts, x, rest := RunToFirstMarked(cfg, k, c);
    r, acts := ExtendRun(cfg, r, acts, DoCheck(0));
    r, acts := ExtendRun(cfg, r, acts, DoRead(0));
    r, acts := ExtendRun(cfg, r, acts, DoClearFound(0));
    r, acts := ExtendRun(cfg, r, acts, DoGiveBack(0));
    assert r[|acts|] == FirstReturned(Base(cfg, k), k, c, x, rest);
  }

  // ---------- Exactly when a subscribe can abort ----------

  function Subscribers(s: State, k: Key): set<Tid> {
    set t | t in s.subs && s.subs[t].key == k
  }

  ghost predicate SomeAborted(s: State, k: Key) {
    exists t :: SubAt(s, t, Aborted) && s.subs[t].key == k
  }

  /** Subscriber 1 has taken what publisher 0 published for the waiting subscriber 0. */
  function SecondTook(b: State, k: Key, c: Content, x: SessId, rest: seq<SessId>): State {
    var m := FirstMarked(b, k, c, x, rest);
    var second := Subscriber(k, Blocking, None, Some(Got(c, false)), SubDone);
    m.(tables := m.tables.(contentMap := map[]), subs := m.subs[1 := second])
  }

  lemma RunToSecondTook(cfg: Config, k: Key, c: Content)
    returns (r: seq<State>, acts: seq<Action>, x: SessId, rest: seq<SessId>)
    requires UsableSession(cfg)
    ensures Run(cfg, r, acts) && cfg.count > 0 && r[|acts|] == SecondTook(Base(cfg, k), k, c, x, rest)
  {
    r, acts, x, rest := RunToFirstMarked(cfg, k, c);
    r, acts := ExtendRun(cfg, r, acts, NewSubscribe(1, k, Blocking));
    r, acts := ExtendRun(cfg, r, acts, DoLookup(1));
  }

  /**
   * For every key and content: a second subscriber takes the Job between the publisher's mark and the first one's read,
   * whose assertion then fails.
   */
  lemma SecondSubscriberCanAbortFirst(cfg: Config, k: Key, c: Content) returns (r: seq<State>, acts: seq<Action>)
    requires UsableSession(cfg)
    ensures Run(cfg, r, acts) && SomeAborted(r[|acts|], k) && |Subscribers(r[|acts|], k)| == 2
  {
    var x, rest;
    r, acts, x, rest := RunToSecondTook(cfg, k, c);
    r, acts := ExtendRun(cfg, r, acts, DoCheck(0));
    r, acts := ExtendRun(cfg, r, acts, DoRead(0));
    assert SubAt(r[|acts|], 0, Aborted);
    assert Subscribers(r[|acts|], k) == {0, 1};
  }

  /** No run in which at most n subscribing calls name the key aborts one of them. */
  ghost predicate NeverAborts(cfg: Config, k: Key, n: nat) {
    forall r, acts :: Run(cfg, r, acts) && |Subscribers(r[|acts|], k)| <= n ==> !SomeAborted(r[|acts|], k)
  }

  lemma AtMostOne(s: State, k: Key) returns (u: Tid)
    requires |Subscribers(s, k)| <= 1
    ensures OnlySubscriber(s, k, u)
  {
    var all := Subscribers(s, k);
    if all == {} {
      u := 0;
      assert forall t :: t in s.subs && s.subs[t].key == k ==> t in all;
    } else {
      u :| u in all;
      assert |all - {u}| == 0;
      assert forall t :: t in s.subs && s.subs[t].key == k ==> t in all && t !in all - {u};
    }
  }

  predicate ZeroIsLost(s: State, t: Tid) {
    t in s.subs && s.subs[t].sess == Some(0) ==> s.subs[t].pc == SubDone
  }

  lemma {:induction false} ZeroStaysLost(cfg: Config, r: seq<State>, acts: seq<Action>, i: nat, t: Tid)
    requires Run(cfg, r, acts) && i < |r|
    ensures ZeroIsLost(r[i], t)
  {
    if i > 0 {
      ZeroStaysLost(cfg, r, acts, i - 1, t);
      assert Next(r[i - 1], r[i], acts[i - 1]);
      StepKeepsZeroLost(r[i - 1], acts[i - 1], t);
    }
  }

  lemma StepKeepsZeroLost(s: State, a: Action, t: Tid)
    requires Enabled(s, a) && ZeroIsLost(s, t)
    ensures ZeroIsLost(After(s, a), t)
  {
  }

  /** A subscriber that aborts has waited, so it has a session. */
  lemma AbortNeedsSession(cfg: Config, r: seq<State>, acts: seq<Action>, i: nat, t: Tid)
    requires Run(cfg, r, acts) && i < |r| && SubAt(r[i], t, Aborted)
    ensures UsableSession(cfg)
  {
    var w := RunInv(cfg, r, acts, i);
    assert SubOk(r[i], w, t);
    SessionAssertionsHold(cfg, r, acts, i, t);
    ZeroStaysLost(cfg, r, acts, i, t);
  }

  /**
   * Exactly: up to n subscribers of a key are safe if and only if n is at most 1, or there is no session to wait with
   * at all.
   */
  lemma AbortsExactlyFromTwoOn(cfg: Config, k: Key, n: nat)
    ensures NeverAborts(cfg, k, n) <==> n <= 1 || !UsableSession(cfg)
    ensures cfg.starts > 0 && cfg.count > 0 ==> (NeverAborts(cfg, k, n) <==> n <= 1)
  {
    if n <= 1 || !UsableSession(cfg) {
      forall r, acts | Run(cfg, r, acts) && |Subscribers(r[|acts|], k)| <= n ensures !SomeAborted(r[|acts|], k) {
        NoneAborts(cfg, r, acts, k, n);
      }
    } else {
      var r, acts := SecondSubscriberCanAbortFirst(cfg, k, 0);
    }
  }

  lemma NoneAborts(cfg: Config, r: seq<State>, acts: seq<Action>, k: Key, n: nat)
    requires (n <= 1 || !UsableSession(cfg)) && Run(cfg, r, acts) && |Subscribers(r[|acts|], k)| <= n
    ensures !SomeAborted(r[|acts|], k)
  {
    var s := r[|acts|];
    forall t | t in s.subs && s.subs[t].key == k ensures s.subs[t].pc != Aborted {
      if n <= 1 {
        var u := AtMostOne(s, k);
        SubscriberGetsPublishedJob(cfg, r, acts, |acts|, k, t);
      } else if SubAt(s, t, Aborted) {
        AbortNeedsSession(cfg, r, acts, |acts|, t);
      }
    }
  }

  // ---------- Exactly when a subscribe can wrongly find no session ----------

  /** Step i of the run tells subscriber t that no session is free although not all are held. */
  ghost predicate WronglyNone(cfg: Config, r: seq<State>, acts: seq<Action>, i: nat, t: Tid) {
    && Run(cfg, r, acts) && i < |acts| && acts[i] == DoGetSess(t)
    && SubAt(r[i + 1], t, SubDone) && r[i + 1].subs[t].result == Some(NoSession) && !AllHeld(cfg, r[i])
  }

  /** Subscribers 0 to m - 1 wait, each for its own key, on the first m sessions. */
  function Taken(cfg: Config, m: nat): (s: State)
    requires m <= cfg.count
    ensures s.tables.contentMap == map[] && s.tables.free == InitTables(cfg).free[m..]
    ensures s.contentOwner == None && forall t :: t in s.subs ==> t < m
  {
    if m == 0 then
      State(InitTables(cfg), None, {}, map[], map[])
    else
      var t, b := m - 1, Taken(cfg, m - 1);
      var tables := b.tables.(waiterMap := b.tables.waiterMap[t := cfg.starts + t], free := InitTables(cfg).free[m..]);
      b.(tables := tables, subs := b.subs[t := Subscriber(t, Blocking, Some(cfg.starts + t), None, Check)])
  }

  lemma {:induction false} RunToTaken(cfg: Config, m: nat) returns (r: seq<State>, acts: seq<Action>)
    requires m <= cfg.count && cfg.starts + m <= 0
    ensures Run(cfg, r, acts) && r[|acts|] == Taken(cfg, m)
  {
    if m == 0 {
      r, acts := [State(InitTables(cfg), None, {}, map[], map[])], [];
    } else {
      var t := m - 1;
      r, acts := RunToTaken(cfg, t);
      assert InitTables(cfg).free[t..][0] == cfg.starts + t &&
        InitTables(cfg).free[t..][1..] == InitTables(cfg).free[m..];
      r, acts := ExtendRun(cfg, r, acts, NewSubscribe(t, t, Blocking));
      r, acts := ExtendRun(cfg, r, acts, DoLookup(t));
      r, acts := ExtendRun(cfg, r, acts, DoGetSess(t));
      r, acts := ExtendRun(cfg, r, acts, DoRegister(t));
      r, acts := ExtendRun(cfg, r, acts, DoUnlock(t));
    }
  }

  lemma ZeroReadsAsNone(cfg: Config) returns (r: seq<State>, acts: seq<Action>, i: nat, t: Tid)
    requires cfg.ValidSess(0)
    ensures WronglyNone(cfg, r, acts, i, t)
  {
    t := -cfg.starts;
    r, acts := RunToTaken(cfg, t);
    r, acts := ExtendRun(cfg, r, acts, NewSubscribe(t, t, Blocking));
    r, acts := ExtendRun(cfg, r, acts, DoLookup(t));
    i := |acts|;
    var last := r[i];
    assert last.tables.free == Taken(cfg, t).tables.free && last.tables.free[0] == 0;
    r, acts := r + [After(last, DoGetSess(t))], acts + [DoGetSess(t)];
    NoSessionOnlyWhenAllHeld(cfg, r, acts, i, t);
    SessionsConserved(cfg, r, acts, i);
    assert r[i].tables.free[0] in r[i].tables.free;
  }

  /** Exactly: some run wrongly finds no session if and only if 0 is one of the session IDs. */
  lemma WronglyNoneExactlyWithZero(cfg: Config)
    ensures (exists r, acts, i, t :: WronglyNone(cfg, r, acts, i, t)) <==> cfg.ValidSess(0)
  {
    if cfg.ValidSess(0) {
      var r, acts, i, t := ZeroReadsAsNone(cfg);
    }
    forall r: seq<State>, acts: seq<Action>, i: nat, t: Tid | WronglyNone(cfg, r, acts, i, t) ensures cfg.ValidSess(0) {
      NoSessionOnlyWhenAllHeld(cfg, r, acts, i, t);
      SessionsConserved(cfg, r, acts, i);
      assert r[i].tables.free[0] in r[i].tables.free;
    }
  }
}
