/** What one publisher and one subscriber of a key see, whatever every other thread of the broker does. */
module BrokerDelivery {
  import opened Options
  import opened BrokerTables
  import opened BrokerProtocol
  import opened BrokerSubscriber

  /** The part of the broker's state that concerns key k, its publishing thread p and its subscribing thread u. */
  datatype Local = Local(
    pub: Option<Publisher>,
    sub: Option<Subscriber>,
    content: Option<Content>,
    waiter: Option<SessId>,
    found: bool)

  function ViewOf(s: State, k: Key, p: Tid, u: Tid): Local {
    Local(
      if p in s.pubs && s.pubs[p].key == k then Some(s.pubs[p]) else None,
      if u in s.subs && s.subs[u].key == k then Some(s.subs[u]) else None,
      if k in s.tables.contentMap then Some(s.tables.contentMap[k]) else None,
      if k in s.tables.waiterMap then Some(s.tables.waiterMap[k]) else None,
      u in s.subs && s.subs[u].sess.Some? && s.subs[u].sess.value in s.tables.found)
  }

  /** p is the only publishing thread of key k, and u the only subscribing one, if they exist at all. */
  ghost predicate Alone(s: State, k: Key, p: Tid, u: Tid) {
    OnlyPublisher(s, k, p) && OnlySubscriber(s, k, u)
  }

  predicate Published(v: Local) {
    v.pub.Some? && v.pub.value.pc != Store
  }

  predicate Claimable(v: Local) {
    v.pub.Some? ==> v.pub.value.pc == Store || v.pub.value.pc == Claim
  }

  /** The subscriber found the content at once, and erased it. */
  predicate ErasedAtOnce(v: Local) {
    v.sub.Some? && HasContent(v.sub.value) && !v.sub.value.result.value.waited
  }

  predicate TablesOk(v: Local) {
    && v.content == (if Published(v) && !ErasedAtOnce(v) then Some(v.pub.value.content) else None)
    && v.waiter == (if v.sub.Some? && Waiting(v.sub.value) && Claimable(v) then v.sub.value.sess else None)
  }

  /** How far the two sides of one delivery may be apart. */
  predicate PhaseOk(v: Local) {
    v.sub.Some? ==>
      var q := v.sub.value;
      && (Waiting(q) || PastWait(q) || q.pc == GiveBack ==> q.sess.Some?)
      && q.pc != Aborted
      && (q.pc == GetSess || q.pc == Register ==> !Published(v))
      && (Waiting(q) ==>
            && (Claimable(v) ==> !v.found)
            && (!Claimable(v) ==>
                  var pub := v.pub.value;
                  && (pub.pc == Mark ==> !v.found)
                  && (pub.pc == Mark || pub.pc == Notify ==> pub.target == q.sess.value)
                  && (pub.pc == Notify || pub.pc == PubDone ==> v.found)
                  && (pub.pc == PubDone ==> !Sleepy(q))))
      && (PastWait(q) || q.pc == GiveBack ==> !Claimable(v))
      && (HasContent(q) ==> Published(v) && q.result.value.content == v.pub.value.content)
      && (HasContent(q) && q.result.value.waited ==> !Claimable(v))
      && (q.pc == SubDone ==> q.result.Some?)
      && (q.pc != SubDone && q.result.Some? ==>
         (q.pc == ClearFound || q.pc == GiveBack) && HasContent(q) && q.result.value.waited)
      && (q.pc == GiveBack || q.pc == ClearFound ==> q.result.Some?)
      && (q.result == Some(Nothing) ==> q.access == NoBlocking)
  }

  predicate LocalOk(v: Local) {
    TablesOk(v) && PhaseOk(v)
  }

  function KeyOfPublisher(s: State, a: Action): Key
    requires ByPublisher(a) && Enabled(s, a)
  {
    if a.NewPublish? then a.key else s.pubs[a.t].key
  }

  function KeyOfSubscriber(s: State, a: Action): Key
    requires !ByPublisher(a) && Enabled(s, a)
  {
    if a.NewSubscribe? then a.key else s.subs[a.t].key
  }

  /** A stray notification, or a spurious wakeup, is all that another thread can do to the pair. */
  predicate SameView(v: Local, v': Local) {
    v' == v || (v.sub.Some? && v.sub.value.pc == Asleep && v' == v.(sub := Some(v.sub.value.(pc := Check))))
  }

  lemma OtherPublisherStep(cfg: Config, s: State, a: Action, w: Witness, k: Key, p: Tid, u: Tid)
    requires ByPublisher(a) && Enabled(s, a) && KeyOfPublisher(s, a) != k && HasKey(s, k, p, u)
    requires u in s.subs ==> SubOk(s, w, u)
    requires a.t in s.pubs ==> PubOk(s, w, a.t) && SessOk(cfg, s, w, s.pubs[a.t].target)
    ensures SameView(ViewOf(s, k, p, u), ViewOf(After(s, a), k, p, u))
  {
  }

  predicate HasKey(s: State, k: Key, p: Tid, u: Tid) {
    (p in s.pubs ==> s.pubs[p].key == k) && (u in s.subs ==> s.subs[u].key == k)
  }

  lemma OtherEntryStep(s: State, a: Action, w: Witness, k: Key, p: Tid, u: Tid)
    requires ByEntry(a) && Enabled(s, a) && KeyOfSubscriber(s, a) != k && HasKey(s, k, p, u)
    requires u in s.subs ==> SubOk(s, w, u)
    requires a.t in s.subs ==> SubOk(s, w, a.t)
    ensures SameView(ViewOf(s, k, p, u), ViewOf(After(s, a), k, p, u))
  {
  }

  lemma OtherWaitStep(s: State, a: Action, w: Witness, k: Key, p: Tid, u: Tid)
    requires !ByPublisher(a) && !ByEntry(a)
    requires Enabled(s, a) && KeyOfSubscriber(s, a) != k && HasKey(s, k, p, u)
    requires u in s.subs ==> SubOk(s, w, u)
    requires a.t in s.subs ==> SubOk(s, w, a.t)
    ensures SameView(ViewOf(s, k, p, u), ViewOf(After(s, a), k, p, u))
  {
  }

  lemma OwnStoreStep(s: State, a: Action, w: Witness, k: Key, p: Tid, u: Tid)
    requires a.NewPublish? || a.DoStore?
    requires Enabled(s, a) && KeyOfPublisher(s, a) == k && a.t == p && HasKey(s, k, p, u)
    requires (u in s.subs ==> SubOk(s, w, u)) && LocalOk(ViewOf(s, k, p, u))
    ensures LocalOk(ViewOf(After(s, a), k, p, u))
  {
  }

  lemma OwnClaimStep(s: State, a: Action, w: Witness, k: Key, p: Tid, u: Tid)
    requires a.DoClaim?
    requires Enabled(s, a) && KeyOfPublisher(s, a) == k && a.t == p && HasKey(s, k, p, u)
    requires (u in s.subs ==> SubOk(s, w, u)) && LocalOk(ViewOf(s, k, p, u))
    ensures LocalOk(ViewOf(After(s, a), k, p, u))
  {
  }

  lemma OwnMarkStep(s: State, a: Action, w: Witness, k: Key, p: Tid, u: Tid)
    requires a.DoMark? && Enabled(s, a) && KeyOfPublisher(s, a) == k && a.t == p && HasKey(s, k, p, u)
    requires (u in s.subs ==> SubOk(s, w, u)) && LocalOk(ViewOf(s, k, p, u))
    ensures LocalOk(ViewOf(After(s, a), k, p, u))
  {
  }

  lemma OwnNotifyStep(s: State, a: Action, w: Witness, k: Key, p: Tid, u: Tid)
    requires a.DoNotify? && Enabled(s, a) && KeyOfPublisher(s, a) == k && a.t == p && HasKey(s, k, p, u)
    requires (u in s.subs ==> SubOk(s, w, u)) && LocalOk(ViewOf(s, k, p, u))
    requires a.sleeper.Some? ==> SubOk(s, w, a.sleeper.value)
    ensures LocalOk(ViewOf(After(s, a), k, p, u))
  {
  }

  lemma OwnLookupStep(s: State, a: Action, w: Witness, k: Key, p: Tid, u: Tid)
    requires a.NewSubscribe? || a.DoLookup?
    requires Enabled(s, a) && KeyOfSubscriber(s, a) == k && a.t == u && HasKey(s, k, p, u)
    requires (u in s.subs ==> SubOk(s, w, u)) && LocalOk(ViewOf(s, k, p, u))
    ensures LocalOk(ViewOf(After(s, a), k, p, u))
  {
  }

  lemma OwnGetSessStep(s: State, a: Action, w: Witness, k: Key, p: Tid, u: Tid)
    requires a.DoGetSess?
    requires Enabled(s, a) && KeyOfSubscriber(s, a) == k && a.t == u && HasKey(s, k, p, u)
    requires (u in s.subs ==> SubOk(s, w, u)) && LocalOk(ViewOf(s, k, p, u))
    ensures LocalOk(ViewOf(After(s, a), k, p, u))
  {
  }

  lemma OwnRegisterStep(cfg: Config, s: State, a: Action, w: Witness, k: Key, p: Tid, u: Tid)
    requires a.DoRegister? && Enabled(s, a) && KeyOfSubscriber(s, a) == k && a.t == u && HasKey(s, k, p, u)
    requires SubOk(s, w, u) && SessOk(cfg, s, w, s.subs[u].sess.value) && LocalOk(ViewOf(s, k, p, u))
    ensures LocalOk(ViewOf(After(s, a), k, p, u))
  {
  }

  lemma OwnWaitStep(s: State, a: Action, w: Witness, k: Key, p: Tid, u: Tid)
    requires a.DoUnlock? || a.DoCheck?
    requires Enabled(s, a) && KeyOfSubscriber(s, a) == k && a.t == u && HasKey(s, k, p, u)
    requires SubOk(s, w, u) && LocalOk(ViewOf(s, k, p, u))
    ensures LocalOk(ViewOf(After(s, a), k, p, u))
  {
  }

  lemma OwnSleepStep(s: State, a: Action, w: Witness, k: Key, p: Tid, u: Tid)
    requires a.DoSleep? || a.DoWake?
    requires Enabled(s, a) && KeyOfSubscriber(s, a) == k && a.t == u && HasKey(s, k, p, u)
    requires SubOk(s, w, u) && LocalOk(ViewOf(s, k, p, u))
    ensures LocalOk(ViewOf(After(s, a), k, p, u))
  {
  }

  lemma OwnReturnStep(s: State, a: Action, w: Witness, k: Key, p: Tid, u: Tid)
    requires a.DoRead? || a.DoClearFound? || a.DoGiveBack?
    requires Enabled(s, a) && KeyOfSubscriber(s, a) == k && a.t == u && HasKey(s, k, p, u)
    requires SubOk(s, w, u) && LocalOk(ViewOf(s, k, p, u))
    ensures LocalOk(ViewOf(After(s, a), k, p, u))
  {
  }

  lemma {:induction false} WakingKeepsLocal(v: Local, v': Local)
    requires LocalOk(v) && SameView(v, v')
    ensures LocalOk(v')
  {
  }

  lemma PairBefore(s: State, a: Action, k: Key, p: Tid, u: Tid)
    requires Enabled(s, a) && Alone(After(s, a), k, p, u) && HasKey(After(s, a), k, p, u)
    ensures Alone(s, k, p, u) && HasKey(s, k, p, u)
    ensures ByPublisher(a) && KeyOfPublisher(s, a) == k ==> a.t == p
    ensures !ByPublisher(a) && KeyOfSubscriber(s, a) == k ==> a.t == u
  {
    var s' := After(s, a);
    forall t | t in s.pubs ensures t in s'.pubs && s'.pubs[t].key == s.pubs[t].key {
    }
    forall t | t in s.subs ensures t in s'.subs && s'.subs[t].key == s.subs[t].key {
    }
    if ByPublisher(a) {
      assert a.t in s'.pubs && s'.pubs[a.t].key == KeyOfPublisher(s, a);
    } else {
      assert a.t in s'.subs && s'.subs[a.t].key == KeyOfSubscriber(s, a);
    }
  }

  lemma PublisherKeepsLocal(cfg: Config, s: State, a: Action, w: Witness, k: Key, p: Tid, u: Tid)
    requires Inv(cfg, s, w) && Enabled(s, a) && ByPublisher(a) && LocalOk(ViewOf(s, k, p, u)) && HasKey(s, k, p, u)
    requires KeyOfPublisher(s, a) == k ==> a.t == p
    ensures LocalOk(ViewOf(After(s, a), k, p, u))
  {
    assert u in s.subs ==> SubOk(s, w, u);
    assert a.t in s.pubs ==> PubOk(s, w, a.t) && SessOk(cfg, s, w, s.pubs[a.t].target);
    if KeyOfPublisher(s, a) != k {
      OtherPublisherStep(cfg, s, a, w, k, p, u);
      WakingKeepsLocal(ViewOf(s, k, p, u), ViewOf(After(s, a), k, p, u));
    } else {
      match a {
        case NewPublish(_, _, _) => OwnStoreStep(s, a, w, k, p, u);
        case DoStore(_) => OwnStoreStep(s, a, w, k, p, u);
        case DoClaim(_) => OwnClaimStep(s, a, w, k, p, u);
        case DoMark(_) => OwnMarkStep(s, a, w, k, p, u);
        case DoNotify(_, sleeper) =>
          assert sleeper.Some? ==> SubOk(s, w, sleeper.value);
          OwnNotifyStep(s, a, w, k, p, u);
      }
    }
  }

  lemma SubscriberKeepsLocal(cfg: Config, s: State, a: Action, w: Witness, k: Key, p: Tid, u: Tid)
    requires Inv(cfg, s, w) && Enabled(s, a) && !ByPublisher(a) && LocalOk(ViewOf(s, k, p, u)) && HasKey(s, k, p, u)
    requires KeyOfSubscriber(s, a) == k ==> a.t == u
    ensures LocalOk(ViewOf(After(s, a), k, p, u))
  {
    assert u in s.subs ==> SubOk(s, w, u);
    assert a.t in s.subs ==> SubOk(s, w, a.t);
    if KeyOfSubscriber(s, a) != k {
      if ByEntry(a) {
        OtherEntryStep(s, a, w, k, p, u);
      } else {
        OtherWaitStep(s, a, w, k, p, u);
      }
      WakingKeepsLocal(ViewOf(s, k, p, u), ViewOf(After(s, a), k, p, u));
    } else {
      match a {
        case NewSubscribe(_, _, _) => OwnLookupStep(s, a, w, k, p, u);
        case DoLookup(_) => OwnLookupStep(s, a, w, k, p, u);
        case DoGetSess(_) => OwnGetSessStep(s, a, w, k, p, u);
        case DoRegister(_) =>
          assert SessOk(cfg, s, w, s.subs[u].sess.value);
          OwnRegisterStep(cfg, s, a, w, k, p, u);
        case DoRead(_) => OwnReturnStep(s, a, w, k, p, u);
        case DoClearFound(_) => OwnReturnStep(s, a, w, k, p, u);
        case DoGiveBack(_) => OwnReturnStep(s, a, w, k, p, u);
        case DoSleep(_) => OwnSleepStep(s, a, w, k, p, u);
        case DoWake(_) => OwnSleepStep(s, a, w, k, p, u);
        case _ => OwnWaitStep(s, a, w, k, p, u);
      }
    }
  }

  /** One step keeps the pair's invariant; the composed system of request and reply uses it too. */
  lemma StepLocal(cfg: Config, s: State, a: Action, w: Witness, k: Key, p: Tid, u: Tid)
    requires Inv(cfg, s, w) && Enabled(s, a) && LocalOk(ViewOf(s, k, p, u))
    requires Alone(After(s, a), k, p, u) && HasKey(After(s, a), k, p, u)
    ensures LocalOk(ViewOf(After(s, a), k, p, u))
  {
    PairBefore(s, a, k, p, u);
    if ByPublisher(a) {
      PublisherKeepsLocal(cfg, s, a, w, k, p, u);
    } else {
      SubscriberKeepsLocal(cfg, s, a, w, k, p, u);
    }
  }

  lemma {:induction false} RunLocal(cfg: Config, r: seq<State>, acts: seq<Action>, i: nat, k: Key, p: Tid, u: Tid)
    requires Run(cfg, r, acts) && i < |r| && Alone(r[i], k, p, u) && HasKey(r[i], k, p, u)
    ensures LocalOk(ViewOf(r[i], k, p, u))
  {
    if i > 0 {
      assert Next(r[i - 1], r[i], acts[i - 1]);
      PairBefore(r[i - 1], acts[i - 1], k, p, u);
      RunLocal(cfg, r, acts, i - 1, k, p, u);
      var w := RunInv(cfg, r, acts, i - 1);
      StepLocal(cfg, r[i - 1], acts[i - 1], w, k, p, u);
    }
  }

  /**
   * Once publishEx has returned, its subscriber is not left asleep: it has returned, or its wait condition already
   * holds.
   */
  lemma PublishedMeansAwake(cfg: Config, r: seq<State>, acts: seq<Action>, i: nat, k: Key, p: Tid, u: Tid)
    requires Run(cfg, r, acts) && i < |r| && Alone(r[i], k, p, u) && HasKey(r[i], k, p, u)
    requires PubAt(r[i], p, PubDone) && u in r[i].subs
    ensures !Sleepy(r[i].subs[u])
    ensures Waiting(r[i].subs[u]) ==> r[i].subs[u].sess.Some? && r[i].subs[u].sess.value in r[i].tables.found
  {
    RunLocal(cfg, r, acts, i, k, p, u);
    assert ViewOf(r[i], k, p, u).sub == Some(r[i].subs[u]);
    assert ViewOf(r[i], k, p, u).pub == Some(r[i].pubs[p]);
  }

  /**
   * The published Job stays in the map exactly when it was delivered through the wait, because that path never erases
   * it.
   */
  lemma WaitedDeliveryStaysInMap(cfg: Config, r: seq<State>, acts: seq<Action>, i: nat, k: Key, p: Tid, u: Tid)
    requires Run(cfg, r, acts) && i < |r| && Alone(r[i], k, p, u) && HasKey(r[i], k, p, u)
    requires u in r[i].subs && HasContent(r[i].subs[u])
    ensures k in r[i].tables.contentMap <==> r[i].subs[u].result.value.waited
  {
    RunLocal(cfg, r, acts, i, k, p, u);
    assert ViewOf(r[i], k, p, u).sub == Some(r[i].subs[u]);
  }

  // ---------- What the first look at the map decides ----------

  /** The subscriber is past its first look, and that did not give it the content. */
  predicate MissedAtFirst(s: State, u: Tid) {
    u in s.subs && s.subs[u].pc != Lookup && (HasContent(s.subs[u]) ==> s.subs[u].result.value.waited)
  }

  predicate GotAtOnce(s: State, u: Tid) {
    u in s.subs && s.subs[u].pc == SubDone && HasContent(s.subs[u]) && !s.subs[u].result.value.waited
  }

  lemma MissStays(s: State, a: Action, u: Tid)
    requires Enabled(s, a) && MissedAtFirst(s, u)
    ensures MissedAtFirst(After(s, a), u)
  {
  }

  lemma GotStays(s: State, a: Action, u: Tid)
    requires Enabled(s, a) && GotAtOnce(s, u)
    ensures GotAtOnce(After(s, a), u)
  {
  }

  lemma {:induction false} NoResultBeforeLook(cfg: Config, r: seq<State>, acts: seq<Action>, i: nat, u: Tid)
    requires Run(cfg, r, acts) && i < |r| && SubAt(r[i], u, Lookup)
    ensures r[i].subs[u].result == None
  {
    if i > 0 {
      assert Next(r[i - 1], r[i], acts[i - 1]);
      if u in r[i - 1].subs {
        NoResultBeforeLook(cfg, r, acts, i - 1, u);
      }
    }
  }

  lemma {:induction false} FirstLookDecides(cfg: Config, r: seq<State>, acts: seq<Action>, j: nat, i: nat, u: Tid)
    requires Run(cfg, r, acts) && j < i < |r| && acts[j] == DoLookup(u)
    ensures u in r[j].subs
    ensures if r[j].subs[u].key in r[j].tables.contentMap then GotAtOnce(r[i], u) else MissedAtFirst(r[i], u)
  {
    assert Next(r[j], r[j + 1], acts[j]);
    NoResultBeforeLook(cfg, r, acts, j, u);
    if i > j + 1 {
      FirstLookDecides(cfg, r, acts, j, i - 1, u);
      assert Next(r[i - 1], r[i], acts[i - 1]);
      if r[j].subs[u].key in r[j].tables.contentMap {
        GotStays(r[i - 1], acts[i - 1], u);
      } else {
        MissStays(r[i - 1], acts[i - 1], u);
      }
    }
  }

  /** A delivered Job stays in the map exactly when the key was not yet published at the subscriber's first look. */
  lemma DeliveredStaysIfLookedFirst(cfg: Config, r: seq<State>, acts: seq<Action>, j: nat, i: nat, k: Key, p: Tid,
        u: Tid)
    requires Run(cfg, r, acts) && j < i < |r| && Alone(r[i], k, p, u) && HasKey(r[i], k, p, u)
    requires acts[j] == DoLookup(u) && u in r[i].subs && HasContent(r[i].subs[u])
    ensures k in r[i].tables.contentMap <==> k !in r[j].tables.contentMap
  {
    WaitedDeliveryStaysInMap(cfg, r, acts, i, k, p, u);
    FirstLookDecides(cfg, r, acts, j, i, u);
    KeyStays(cfg, r, acts, j, i, u);
  }

  lemma {:induction false} KeyStays(cfg: Config, r: seq<State>, acts: seq<Action>, j: nat, i: nat, u: Tid)
    requires Run(cfg, r, acts) && j <= i < |r| && u in r[j].subs
    ensures u in r[i].subs && r[i].subs[u].key == r[j].subs[u].key
  {
    if i > j {
      KeyStays(cfg, r, acts, j, i - 1, u);
      assert Next(r[i - 1], r[i], acts[i - 1]);
    }
  }
}
