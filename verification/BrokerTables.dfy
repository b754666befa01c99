/** The publish/subscribe rendezvous of the server: its tables and the lock regions that change them. */
module BrokerTables {
  import opened Options

  type Key = nat
  type Content = int // identity of a published Job object
  type SessId = int

  /** BROKER_ADHOC_SESS_STARTS and BROKER_ADHOC_SESS_COUNT. */
  datatype Config = Config(starts: int, count: nat) {
    predicate ValidSess(sess: SessId) {
      starts <= sess < starts + count
    }
  }

  datatype Access = Blocking | NoBlocking

  /** The static members of Broker; found is the set of sessions whose flag in adhocSessArray is set. */
  datatype Tables = Tables(
    contentMap: map<Key, Content>,
    waiterMap: map<Key, SessId>,
    found: set<SessId>,
    free: seq<SessId>)

  function InitTables(cfg: Config): Tables {
    Tables(map[], map[], {}, seq(cfg.count, i => i + cfg.starts))
  }

  function Stored(b: Tables, key: Key, content: Content): Tables {
    b.(contentMap := b.contentMap[key := content])
  }

  function Claimed(b: Tables, key: Key): Tables {
    b.(waiterMap := b.waiterMap - {key})
  }

  function Taken(b: Tables, key: Key): Tables {
    b.(contentMap := b.contentMap - {key})
  }

  function Registered(b: Tables, key: Key, sess: SessId): Tables {
    b.(waiterMap := b.waiterMap[key := sess])
  }

  function WithFound(b: Tables, sess: SessId, value: bool): Tables {
    b.(found := if value then b.found + {sess} else b.found - {sess})
  }

  function Issued(b: Tables): Tables
    requires b.free != []
  {
    b.(free := b.free[1..])
  }

  function Returned(b: Tables, sess: SessId): Tables {
    b.(free := b.free + [sess])
  }

  /** How the part of subscribeEx that runs under contentMutex ends. */
  datatype Entry = Delivered(content: Content) | NoContent | NoFreeAdhocSess | MustWait(sess: SessId)

  /**
   * The broker's static state; each method is one lock region of the source, or a whole call run without interference.
   */
  class Broker {
    const cfg: Config
    var contentMap: map<Key, Content>
    var waiterMap: map<Key, SessId>
    const found: array<bool>
    var freeAdhocSessIDList: seq<SessId>

    ghost predicate Valid()
      reads this, found
    {
      found.Length == cfg.count && forall i :: 0 <= i < |freeAdhocSessIDList| ==> cfg.ValidSess(freeAdhocSessIDList[i])
    }

    ghost function Flagged(): set<SessId>
      reads found
    {
      set i | 0 <= i < found.Length && found[i] :: i + cfg.starts
    }

    ghost function View(): Tables
      reads this, found
    {
      Tables(contentMap, waiterMap, Flagged(), freeAdhocSessIDList)
    }

    constructor (cfg: Config)
      ensures Valid() && this.cfg == cfg && fresh(found)
      ensures View() == InitTables(cfg) && contentMap == waiterMap == map[] && |freeAdhocSessIDList| == cfg.count
      ensures forall i :: 0 <= i < cfg.count ==> freeAdhocSessIDList[i] == cfg.starts + i && !found[i]
    {
      this.cfg := cfg;
      contentMap, waiterMap := map[], map[];
      var sessions := new bool[cfg.count](_ => false);
      found := sessions;
      var ids: seq<SessId> := [];
      for i := 0 to cfg.count
        invariant ids == seq(i, j => j + cfg.starts)
      {
        ids := ids + [i + cfg.starts];
      }
      freeAdhocSessIDList := ids;
    }

    method StoreContent(key: Key, content: Content)
      requires Valid()
      modifies `contentMap
      ensures Valid() && View() == Stored(old(View()), key, content)
      ensures contentMap == old(contentMap)[key := content]
    {
      contentMap := contentMap[key := content];
    }

    method ClaimWaiter(key: Key) returns (sess: Option<SessId>)
      requires Valid()
      modifies `waiterMap
      ensures Valid() && View() == Claimed(old(View()), key) && waiterMap == old(waiterMap) - {key}
      ensures sess == if key in old(waiterMap) then Some(old(waiterMap)[key]) else None
    {
      if key in waiterMap {
        sess := Some(waiterMap[key]);
        waiterMap := waiterMap - {key};
      } else {
        sess := None;
        assert waiterMap - {key} == waiterMap;
      }
    }

    method SetFound(sess: SessId, value: bool)
      requires Valid() && cfg.ValidSess(sess)
      modifies found
      ensures Valid() && View() == WithFound(old(View()), sess, value)
      ensures found[..] == old(found[..])[sess - cfg.starts := value]
    {
      found[sess - cfg.starts] := value;
      assert forall i :: 0 <= i < found.Length && i != sess - cfg.starts ==> found[i] == old(found[i]);
      assert forall x :: x in Flagged() <==> cfg.ValidSess(x) && found[x - cfg.starts];
      assert forall x :: x in old(Flagged()) <==> cfg.ValidSess(x) && old(found[x - cfg.starts]);
    }

    method PublishEx(key: Key, content: Content)
      requires Valid()
      requires forall k :: k in waiterMap ==> cfg.ValidSess(waiterMap[k])
      modifies `contentMap, `waiterMap, found
      ensures Valid() && contentMap == old(contentMap)[key := content] && waiterMap == old(waiterMap) - {key}
      ensures forall i :: 0 <= i < cfg.count ==>
                (found[i] <==> old(found[i]) || (key in old(waiterMap) && old(waiterMap)[key] == cfg.starts + i))
      ensures View() ==
              var stored := Claimed(Stored(old(View()), key, content), key);
              if key in old(waiterMap) then WithFound(stored, old(waiterMap)[key], true) else stored
    {
      StoreContent(key, content);
      var sess := ClaimWaiter(key);
      if sess.Some? {
        SetFound(sess.value, true);
      }
    }

    method TakeContent(key: Key) returns (content: Option<Content>)
      requires Valid()
      modifies `contentMap
      ensures Valid() && View() == Taken(old(View()), key) && contentMap == old(contentMap) - {key}
      ensures content == if key in old(contentMap) then Some(old(contentMap)[key]) else None
    {
      if key in contentMap {
        content := Some(contentMap[key]);
        contentMap := contentMap - {key};
      } else {
        content := None;
        assert contentMap - {key} == contentMap;
      }
    }

    /** Returns 0 when no session is free, exactly as the source does. */
    method GetFreeAdhocSessID() returns (sessID: SessId)
      requires Valid()
      modifies `freeAdhocSessIDList
      ensures Valid()
      ensures freeAdhocSessIDList == if old(freeAdhocSessIDList) == [] then [] else old(freeAdhocSessIDList)[1..]
      ensures old(freeAdhocSessIDList) == [] ==> sessID == 0 && View() == old(View())
      ensures old(freeAdhocSessIDList) != [] ==> sessID == old(freeAdhocSessIDList)[0] && View() == Issued(old(View()))
      ensures cfg.starts > 0 ==> (sessID == 0 <==> old(freeAdhocSessIDList) == [])
    {
      if freeAdhocSessIDList == [] {
        return 0;
      }
      sessID := freeAdhocSessIDList[0];
      freeAdhocSessIDList := freeAdhocSessIDList[1..];
    }

    method RegisterWaiter(key: Key, sess: SessId)
      requires Valid()
      modifies `waiterMap
      ensures Valid() && View() == Registered(old(View()), key, sess) && waiterMap == old(waiterMap)[key := sess]
    {
      waiterMap := waiterMap[key := sess];
    }

    method ReleaseAdhocSessID(sessID: SessId)
      requires Valid() && cfg.ValidSess(sessID)
      modifies found, `freeAdhocSessIDList
      ensures Valid() && View() == Returned(WithFound(old(View()), sessID, false), sessID)
      ensures freeAdhocSessIDList == old(freeAdhocSessIDList) + [sessID]
      ensures found[..] == old(found[..])[sessID - cfg.starts := false]
    {
      SetFound(sessID, false);
      freeAdhocSessIDList := freeAdhocSessIDList + [sessID];
    }

    /** subscribeEx up to the point where it would sleep; a session whose ID is 0 is lost and reads as none. */
    method EnterSubscribe(key: Key, access: Access) returns (entry: Entry)
      requires Valid()
      modifies `contentMap, `waiterMap, `freeAdhocSessIDList
      ensures Valid() && contentMap == old(contentMap) - {key}
      ensures freeAdhocSessIDList == if key in old(contentMap) || access.NoBlocking? || old(freeAdhocSessIDList) == []
                                     then old(freeAdhocSessIDList) else old(freeAdhocSessIDList)[1..]
      ensures waiterMap == if entry.MustWait? then old(waiterMap)[key := entry.sess] else old(waiterMap)
      ensures match entry
              case Delivered(c) =>
                key in old(contentMap) && c == old(contentMap)[key] && View() == Taken(old(View()), key)
              case NoContent => key !in old(contentMap) && access.NoBlocking? && View() == old(View())
              case NoFreeAdhocSess =>
                && key !in old(contentMap) && access.Blocking?
                && if old(freeAdhocSessIDList) == [] then View() == old(View())
                   else old(freeAdhocSessIDList)[0] == 0 && View() == Issued(old(View()))
              case MustWait(sess) =>
                && key !in old(contentMap) && access.Blocking? && old(freeAdhocSessIDList) != []
                && sess == old(freeAdhocSessIDList)[0] != 0
                && View() == Registered(Issued(old(View())), key, sess)
    {
      var content := TakeContent(key);
      if content.Some? {
        return Delivered(content.value);
      }
      assert contentMap == old(contentMap);
      if access == NoBlocking {
        return NoContent;
      }
      var sessID := GetFreeAdhocSessID();
      if sessID == 0 {
        return NoFreeAdhocSess;
      }
      RegisterWaiter(key, sessID);
      return MustWait(sessID);
    }
  }

  /** A 32-bit int after the cast to uint64_t, which extends its sign. */
  predicate IsWidenedInt(x: bv64) {
    x <= 0x7FFF_FFFF || x >= 0xFFFF_FFFF_8000_0000
  }

  predicate Negative(x: bv64) {
    x >= 0xFFFF_FFFF_8000_0000
  }

  function MakeJobTaskKey(jobID: bv64, taskID: bv64): bv64 {
    (jobID << 32) | taskID
  }

  lemma LowWord(jobID: bv64, taskID: bv64)
    ensures MakeJobTaskKey(jobID, taskID) & 0xFFFF_FFFF == taskID & 0xFFFF_FFFF
  {
  }

  lemma SameLowWord(t1: bv64, t2: bv64)
    requires IsWidenedInt(t1) && IsWidenedInt(t2) && t1 & 0xFFFF_FFFF == t2 & 0xFFFF_FFFF
    ensures t1 == t2
  {
  }

  lemma TaskIDRecovered(j1: bv64, t1: bv64, j2: bv64, t2: bv64)
    requires IsWidenedInt(t1) && IsWidenedInt(t2) && MakeJobTaskKey(j1, t1) == MakeJobTaskKey(j2, t2)
    ensures t1 == t2
  {
    LowWord(j1, t1);
    LowWord(j2, t2);
    SameLowWord(t1, t2);
  }

  lemma NegativeTaskHidesJob(jobID: bv64, taskID: bv64)
    requires Negative(taskID)
    ensures MakeJobTaskKey(jobID, taskID) == taskID
  {
  }

  lemma JobIDRecovered(j1: bv64, j2: bv64, taskID: bv64)
    requires IsWidenedInt(j1) && IsWidenedInt(j2) && taskID <= 0x7FFF_FFFF
    requires MakeJobTaskKey(j1, taskID) == MakeJobTaskKey(j2, taskID)
    ensures j1 == j2
  {
  }

  /** Two keys collide exactly when the pairs are equal, or the task IDs agree and are negative. */
  lemma KeyCollision(j1: bv64, t1: bv64, j2: bv64, t2: bv64)
    requires IsWidenedInt(j1) && IsWidenedInt(t1) && IsWidenedInt(j2) && IsWidenedInt(t2)
    ensures MakeJobTaskKey(j1, t1) == MakeJobTaskKey(j2, t2) <==> t1 == t2 && (j1 == j2 || Negative(t1))
  {
    if MakeJobTaskKey(j1, t1) == MakeJobTaskKey(j2, t2) {
      TaskIDRecovered(j1, t1, j2, t2);
      if !Negative(t1) {
        JobIDRecovered(j1, j2, t1);
      }
    } else if t1 == t2 && Negative(t1) {
      NegativeTaskHidesJob(j1, t1);
      NegativeTaskHidesJob(j2, t1);
    }
  }

  /** The number that a word stands for, bit by bit. */
  function Unsigned(w: bv64): nat
    decreases w
  {
    if w == 0 then 0 else (if w & 1 == 1 then 1 else 0) + 2 * Unsigned(w >> 1)
  }

  lemma Doubled(w: bv64)
    requires w < 0x8000_0000_0000_0000
    ensures Unsigned(w << 1) == 2 * Unsigned(w)
  {
    assert (w << 1) & 1 == 0 && (w << 1) >> 1 == w;
    assert w != 0 ==> w << 1 != 0;
  }

  lemma Shifted2(w: bv64)
    requires w < 0x4000_0000_0000_0000
    ensures Unsigned(w << 2) == 4 * Unsigned(w)
  {
    assert (w << 1) << 1 == w << 2 && w << 1 < 0x8000_0000_0000_0000;
    Doubled(w);
    Doubled(w << 1);
  }

  lemma Shifted4(w: bv64)
    requires w < 0x1000_0000_0000_0000
    ensures Unsigned(w << 4) == 16 * Unsigned(w)
  {
    assert (w << 2) << 2 == w << 4 && w << 2 < 0x4000_0000_0000_0000;
    Shifted2(w);
    Shifted2(w << 2);
  }

  lemma Shifted8(w: bv64)
    requires w < 0x100_0000_0000_0000
    ensures Unsigned(w << 8) == 256 * Unsigned(w)
  {
    assert (w << 4) << 4 == w << 8 && w << 4 < 0x1000_0000_0000_0000;
    Shifted4(w);
    Shifted4(w << 4);
  }

  lemma Shifted16(w: bv64)
    requires w < 0x1_0000_0000_0000
    ensures Unsigned(w << 16) == 65536 * Unsigned(w)
  {
    assert (w << 8) << 8 == w << 16 && w << 8 < 0x100_0000_0000_0000;
    Shifted8(w);
    Shifted8(w << 8);
  }

  /** With task ID 0 the key of a job ID that is not negative is the ID times 2 to the 32. */
  lemma KeyOfJobAlone(jobID: bv64)
    requires jobID <= 0x7FFF_FFFF
    ensures Unsigned(MakeJobTaskKey(jobID, 0)) == Unsigned(jobID) * 0x1_0000_0000
  {
    assert (jobID << 16) << 16 == MakeJobTaskKey(jobID, 0);
    assert jobID << 16 < 0x1_0000_0000_0000;
    Shifted16(jobID);
    Shifted16(jobID << 16);
  }
}
