/**
 * What a subscriber gets, whatever is published and however often: its content was published, and alone on its key it
 * never aborts.
 */
module BrokerSubscriber {
  import opened Options
  import opened BrokerTables
  import opened BrokerProtocol

  predicate HasContent(q: Subscriber) {
    q.result.Some? && q.result.value.Got?
  }

  /** Some publish of key k has stored content c. */
  ghost predicate PublishedUnder(s: State, k: Key, c: Content) {
    exists t :: StoredBy(s, t, k, c)
  }

  predicate StoredBy(s: State, t: Tid, k: Key, c: Content) {
    t in s.pubs && s.pubs[t].key == k && s.pubs[t].content == c && s.pubs[t].pc != Store
  }

  // ---------- Every content was published ----------

  predicate StorerOk(s: State, w: Witness, k: Key) {
    k in s.tables.contentMap ==> k in w.storer && StoredBy(s, w.storer[k], k, s.tables.contentMap[k])
  }

  lemma StoreNamesStorer(s: State, a: Action, w: Witness, k: Key)
    requires a.DoStore? && Enabled(s, a) && StorerOk(s, w, k)
    ensures StorerOk(After(s, a), NextWitness(s, a, w), k)
  {
  }

  lemma StoredStays(s: State, a: Action, t: Tid, k: Key, c: Content)
    requires Enabled(s, a) && StoredBy(s, t, k, c)
    ensures StoredBy(After(s, a), t, k, c)
  {
  }

  lemma ContentOnlyFromStore(s: State, a: Action, k: Key)
    requires !a.DoStore? && Enabled(s, a) && k in After(s, a).tables.contentMap
    ensures k in s.tables.contentMap && After(s, a).tables.contentMap[k] == s.tables.contentMap[k]
  {
  }

  lemma OthersKeepStorer(s: State, a: Action, w: Witness, k: Key)
    requires !a.DoStore? && Enabled(s, a) && StorerOk(s, w, k)
    ensures StorerOk(After(s, a), NextWitness(s, a, w), k)
  {
    if k in After(s, a).tables.contentMap {
      ContentOnlyFromStore(s, a, k);
      StoredStays(s, a, w.storer[k], k, s.tables.contentMap[k]);
    }
  }

  ghost predicate DeliveryOk(s: State, u: Tid) {
    u in s.subs && HasContent(s.subs[u]) ==> PublishedUnder(s, s.subs[u].key, s.subs[u].result.value.content)
  }

  /** A subscriber that has its content now had it before, or reads it from the map now. */
  lemma DeliverySource(s: State, a: Action, u: Tid)
    requires Enabled(s, a) && u in After(s, a).subs && HasContent(After(s, a).subs[u])
    ensures u in s.subs && After(s, a).subs[u].key == s.subs[u].key
    ensures var k, c := s.subs[u].key, After(s, a).subs[u].result.value.content;
            || (HasContent(s.subs[u]) && s.subs[u].result.value.content == c)
            || (k in s.tables.contentMap && s.tables.contentMap[k] == c)
  {
  }

  lemma DeliveryStaysOk(s: State, a: Action, w: Witness, u: Tid)
    requires Enabled(s, a) && DeliveryOk(s, u) && (u in s.subs ==> StorerOk(s, w, s.subs[u].key))
    ensures DeliveryOk(After(s, a), u)
  {
    var s' := After(s, a);
    if u in s'.subs && HasContent(s'.subs[u]) {
      DeliverySource(s, a, u);
      var k, c := s.subs[u].key, s'.subs[u].result.value.content;
      var t := if HasContent(s.subs[u]) && s.subs[u].result.value.content == c then Storing(s, k, c) else w.storer[k];
      StoredStays(s, a, t, k, c);
    }
  }

  ghost function Storing(s: State, k: Key, c: Content): (t: Tid)
    requires PublishedUnder(s, k, c)
    ensures StoredBy(s, t, k, c)
  {
    var t :| StoredBy(s, t, k, c);
    t
  }

  // ---------- A subscriber that is alone on its key ----------

  /** u is the only subscribing call of key k, if there is one at all. */
  ghost predicate OnlySubscriber(s: State, k: Key, u: Tid) {
    forall t :: t in s.subs && s.subs[t].key == k ==> t == u
  }

  ghost predicate OnlyPublisher(s: State, k: Key, p: Tid) {
    forall t :: t in s.pubs && s.pubs[t].key == k ==> t == p
  }

  predicate Sole(s: State, k: Key, u: Tid) {
    u in s.subs && s.subs[u].key == k
  }

  /** u found the content at once, and erased it. */
  predicate TookAtOnce(s: State, k: Key, u: Tid) {
    Sole(s, k, u) && HasContent(s.subs[u]) && !s.subs[u].result.value.waited
  }

  /** Nobody but u erases what was stored under k. */
  predicate PublishKept(s: State, k: Key, u: Tid, t: Tid) {
    t in s.pubs && s.pubs[t].key == k && s.pubs[t].pc != Store ==> k in s.tables.contentMap || TookAtOnce(s, k, u)
  }

  predicate SoleOk(s: State, k: Key, u: Tid) {
    Sole(s, k, u) ==>
      var q := s.subs[u];
      && q.pc != Aborted
      && (q.sess.Some? && q.sess.value in s.tables.found ==> k in s.tables.contentMap)
      && (TookAtOnce(s, k, u) ==> q.pc == SubDone)
      && (q.pc == ClearFound || q.pc == GiveBack || q.pc == SubDone ==> q.result.Some?)
      && (q.result == Some(Nothing) ==> q.access == NoBlocking)
  }

  /** Either u is not the acting thread, or it alone acts on the key as a subscriber. */
  predicate OnlyActor(s: State, a: Action, k: Key, u: Tid)
    requires Enabled(s, a)
  {
    !ByPublisher(a) && (if a.NewSubscribe? then a.key else s.subs[a.t].key) == k ==> a.t == u
  }

  lemma PublishStaysKept(s: State, a: Action, k: Key, u: Tid, t: Tid)
    requires Enabled(s, a) && OnlyActor(s, a, k, u) && PublishKept(s, k, u, t) && SoleOk(s, k, u)
    ensures PublishKept(After(s, a), k, u, t)
  {
  }

  lemma PublisherKeepsSole(cfg: Config, s: State, a: Action, w: Witness, k: Key, u: Tid)
    requires Enabled(s, a) && ByPublisher(a) && SoleOk(s, k, u) && (u in s.subs ==> SubOk(s, w, u))
    requires a.t in s.pubs ==> PubOk(s, w, a.t) && SessOk(cfg, s, w, s.pubs[a.t].target) && PublishKept(s, k, u, a.t)
    ensures SoleOk(After(s, a), k, u)
  {
  }

  lemma OtherSubscriberKeepsSole(s: State, a: Action, w: Witness, k: Key, u: Tid)
    requires Enabled(s, a) && !ByPublisher(a) && a.t != u && OnlyActor(s, a, k, u) && SoleOk(s, k, u)
    requires a.t in s.subs ==> SubOk(s, w, a.t)
    ensures SoleOk(After(s, a), k, u)
  {
  }

  lemma EntryKeepsSole(s: State, a: Action, w: Witness, k: Key, u: Tid)
    requires ByEntry(a) && Enabled(s, a) && a.t == u && SoleOk(s, k, u) && (u in s.subs ==> SubOk(s, w, u))
    requires s.tables.free != [] ==> s.tables.free[0] !in s.tables.found
    ensures SoleOk(After(s, a), k, u)
  {
  }

  lemma WaitKeepsSole(s: State, a: Action, w: Witness, k: Key, u: Tid)
    requires !ByPublisher(a) && !ByEntry(a) && Enabled(s, a) && a.t == u && SoleOk(s, k, u) && SubOk(s, w, u)
    ensures SoleOk(After(s, a), k, u)
  {
  }

  lemma SoleBefore(s: State, a: Action, k: Key, u: Tid)
    requires Enabled(s, a) && OnlySubscriber(After(s, a), k, u)
    ensures OnlySubscriber(s, k, u) && OnlyActor(s, a, k, u)
  {
    var s' := After(s, a);
    forall t | t in s.subs ensures t in s'.subs && s'.subs[t].key == s.subs[t].key {
    }
    assert !ByPublisher(a) ==> a.t in s'.subs;
  }

  lemma {:induction false} RunContent(cfg: Config, r: seq<State>, acts: seq<Action>, i: nat) returns (w: Witness)
    requires Run(cfg, r, acts) && i < |r|
    ensures Inv(cfg, r[i], w)
    ensures forall k {:trigger StorerOk(r[i], w, k)} :: StorerOk(r[i], w, k)
    ensures forall u {:trigger DeliveryOk(r[i], u)} :: DeliveryOk(r[i], u)
  {
    if i == 0 {
      InitInv(cfg, r[0]);
      w := Witness(map[], map[], map[], map[]);
    } else {
      var before := RunContent(cfg, r, acts, i - 1);
      var s, a := r[i - 1], acts[i - 1];
      assert Next(s, r[i], a);
      StepInv(cfg, s, a, before);
      w := NextWitness(s, a, before);
      forall k ensures StorerOk(r[i], w, k) {
        assert StorerOk(s, before, k);
        if a.DoStore? {
          StoreNamesStorer(s, a, before, k);
        } else {
          OthersKeepStorer(s, a, before, k);
        }
      }
      forall u ensures DeliveryOk(r[i], u) {
        assert DeliveryOk(s, u) && (u in s.subs ==> StorerOk(s, before, s.subs[u].key));
        DeliveryStaysOk(s, a, before, u);
      }
    }
  }

  lemma StepSole(cfg: Config, s: State, a: Action, w: Witness, k: Key, u: Tid)
    requires Inv(cfg, s, w) && Enabled(s, a) && OnlyActor(s, a, k, u) && SoleOk(s, k, u)
    requires forall t {:trigger PublishKept(s, k, u, t)} :: PublishKept(s, k, u, t)
    ensures SoleOk(After(s, a), k, u)
  {
    assert u in s.subs ==> SubOk(s, w, u);
    if ByPublisher(a) {
      assert PublishKept(s, k, u, a.t);
      assert a.t in s.pubs ==> PubOk(s, w, a.t) && SessOk(cfg, s, w, s.pubs[a.t].target);
      PublisherKeepsSole(cfg, s, a, w, k, u);
    } else {
      assert a.t in s.subs ==> SubOk(s, w, a.t);
      if a.t != u {
        OtherSubscriberKeepsSole(s, a, w, k, u);
      } else if ByEntry(a) {
        assert s.tables.free != [] ==> SessOk(cfg, s, w, s.tables.free[0]) && s.tables.free[0] in s.tables.free;
        EntryKeepsSole(s, a, w, k, u);
      } else {
        WaitKeepsSole(s, a, w, k, u);
      }
    }
  }

  lemma {:induction false} RunSole(cfg: Config, r: seq<State>, acts: seq<Action>, i: nat, k: Key, u: Tid)
    requires Run(cfg, r, acts) && i < |r| && OnlySubscriber(r[i], k, u)
    ensures SoleOk(r[i], k, u) && forall t {:trigger PublishKept(r[i], k, u, t)} :: PublishKept(r[i], k, u, t)
  {
    if i > 0 {
      var s, a := r[i - 1], acts[i - 1];
      assert Next(s, r[i], a);
      SoleBefore(s, a, k, u);
      RunSole(cfg, r, acts, i - 1, k, u);
      var w := RunInv(cfg, r, acts, i - 1);
      StepSole(cfg, s, a, w, k, u);
      forall t ensures PublishKept(r[i], k, u, t) {
        assert PublishKept(s, k, u, t);
        PublishStaysKept(s, a, k, u, t);
      }
    }
  }

  // ---------- What that means for a subscribe ----------

  /** Whatever a subscribe returns was published under its key, with any number of publishers and subscribers. */
  lemma DeliveredWasPublished(cfg: Config, r: seq<State>, acts: seq<Action>, i: nat, u: Tid)
    requires Run(cfg, r, acts) && i < |r| && u in r[i].subs && HasContent(r[i].subs[u])
    ensures PublishedUnder(r[i], r[i].subs[u].key, r[i].subs[u].result.value.content)
  {
    var w := RunContent(cfg, r, acts, i);
    assert DeliveryOk(r[i], u);
  }

  /**
   * The only subscriber of a key never aborts; a blocking one returns a published Job of its key, the published one if
   * there is just one, or no session.
   */
  lemma SubscriberGetsPublishedJob(cfg: Config, r: seq<State>, acts: seq<Action>, i: nat, k: Key, u: Tid)
    requires Run(cfg, r, acts) && i < |r| && OnlySubscriber(r[i], k, u) && u in r[i].subs && r[i].subs[u].key == k
    ensures r[i].subs[u].pc != Aborted
    ensures HasContent(r[i].subs[u]) ==> PublishedUnder(r[i], k, r[i].subs[u].result.value.content)
    ensures forall p :: HasContent(r[i].subs[u]) && OnlyPublisher(r[i], k, p) ==>
              p in r[i].pubs && r[i].subs[u].result.value.content == r[i].pubs[p].content
    ensures r[i].subs[u].pc == SubDone && r[i].subs[u].access == Blocking ==>
              HasContent(r[i].subs[u]) || r[i].subs[u].result == Some(NoSession)
  {
    RunSole(cfg, r, acts, i, k, u);
    if HasContent(r[i].subs[u]) {
      DeliveredWasPublished(cfg, r, acts, i, u);
    }
  }
}
