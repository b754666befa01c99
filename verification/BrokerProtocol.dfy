/** All interleavings of publishEx and subscribeEx calls, one step per lock region of the source. */
module BrokerProtocol {
  import opened Options
  import opened BrokerTables
  import opened Sequences

  type Tid = nat

  /** How subscribeEx returned; waited tells whether it went through the condition wait. */
  datatype Outcome = Got(content: Content, waited: bool) | Nothing | NoSession

  datatype PubPc = Store | Claim | Mark | Notify | PubDone

  /** AboutToSleep is the state of the condition wait that has seen found==false and still holds the session mutex. */
  datatype SubPc =
    | Lookup | GetSess | Register | Unlock | Check | AboutToSleep | Asleep | Read | ClearFound | GiveBack
    | SubDone | Aborted

  /** A publishEx call in progress; target is its local sessID. */
  datatype Publisher = Publisher(key: Key, content: Content, target: SessId, pc: PubPc)

  /** A subscribeEx call in progress; sess is its local sessID once issued. */
  datatype Subscriber = Subscriber(key: Key, access: Access, sess: Option<SessId>, result: Option<Outcome>, pc: SubPc)

  /** contentOwner holds contentMutex across steps; sessLocked are the sessions whose mutex is held. */
  datatype State = State(
    tables: Tables,
    contentOwner: Option<Tid>,
    sessLocked: set<SessId>,
    pubs: map<Tid, Publisher>,
    subs: map<Tid, Subscriber>)

  predicate Init(cfg: Config, s: State) {
    s == State(InitTables(cfg), None, {}, map[], map[])
  }

  predicate IsAsleep(p: Subscriber, x: SessId) {
    p.sess == Some(x) && p.pc == Asleep
  }

  /** One lock region, or one unlocked write, of one call. A thread that is Asleep may also wake spuriously. */
  datatype Action =
    | NewPublish(t: Tid, key: Key, content: Content)
    | NewSubscribe(t: Tid, key: Key, access: Access)
    | DoStore(t: Tid) | DoClaim(t: Tid) | DoMark(t: Tid) | DoNotify(t: Tid, sleeper: Option<Tid>)
    | DoLookup(t: Tid) | DoGetSess(t: Tid) | DoRegister(t: Tid) | DoUnlock(t: Tid)
    | DoCheck(t: Tid) | DoSleep(t: Tid) | DoWake(t: Tid)
    | DoRead(t: Tid) | DoClearFound(t: Tid) | DoGiveBack(t: Tid)

  predicate PubAt(s: State, t: Tid, pc: PubPc) {
    t in s.pubs && s.pubs[t].pc == pc
  }

  predicate SubAt(s: State, t: Tid, pc: SubPc) {
    t in s.subs && s.subs[t].pc == pc
  }

  predicate SubWithSess(s: State, t: Tid, pc: SubPc) {
    SubAt(s, t, pc) && s.subs[t].sess.Some?
  }

  predicate Enabled(s: State, a: Action) {
    match a
    case NewPublish(t, _, _) => t !in s.pubs
    case NewSubscribe(t, _, _) => t !in s.subs
    case DoStore(t) => PubAt(s, t, Store) && s.contentOwner == None
    case DoClaim(t) => PubAt(s, t, Claim)
    case DoMark(t) => PubAt(s, t, Mark)
    case DoNotify(t, sleeper) =>
      && PubAt(s, t, Notify) && s.pubs[t].target !in s.sessLocked
      && if sleeper.Some? then
           sleeper.value in s.subs && IsAsleep(s.subs[sleeper.value], s.pubs[t].target)
         else
           forall u :: u in s.subs ==> !IsAsleep(s.subs[u], s.pubs[t].target)
    case DoLookup(t) => SubAt(s, t, Lookup) && s.contentOwner == None
    case DoGetSess(t) => SubAt(s, t, GetSess)
    case DoRegister(t) => SubWithSess(s, t, Register)
    case DoUnlock(t) => SubWithSess(s, t, Unlock)
    case DoCheck(t) => SubWithSess(s, t, Check) && s.subs[t].sess.value !in s.sessLocked
    case DoSleep(t) => SubWithSess(s, t, AboutToSleep)
    case DoWake(t) => SubWithSess(s, t, Asleep)
    case DoRead(t) => SubWithSess(s, t, Read)
    case DoClearFound(t) => SubWithSess(s, t, ClearFound)
    case DoGiveBack(t) => SubWithSess(s, t, GiveBack)
  }

  function PubMove(s: State, t: Tid, tables: Tables, p: Publisher): State {
    s.(tables := tables, pubs := s.pubs[t := p])
  }

  function SubMove(s: State, t: Tid, tables: Tables, p: Subscriber): State {
    s.(tables := tables, subs := s.subs[t := p])
  }

  function AfterClaim(s: State, t: Tid): State
    requires t in s.pubs
  {
    var p := s.pubs[t];
    if p.key in s.tables.waiterMap then
      PubMove(s, t, Claimed(s.tables, p.key), p.(target := s.tables.waiterMap[p.key], pc := Mark))
    else
      PubMove(s, t, s.tables, p.(pc := PubDone))
  }

  function AfterLookup(s: State, t: Tid): State
    requires t in s.subs
  {
    var p := s.subs[t];
    if p.key in s.tables.contentMap then
      SubMove(s, t, Taken(s.tables, p.key), p.(result := Some(Got(s.tables.contentMap[p.key], false)), pc := SubDone))
    else if p.access == NoBlocking then
      SubMove(s, t, s.tables, p.(result := Some(Nothing), pc := SubDone))
    else
      SubMove(s, t, s.tables, p.(pc := GetSess)).(contentOwner := Some(t))
  }

  /** The ID 0 reads as "no session", so if it is ever issued it is lost. */
  function AfterGetSess(s: State, t: Tid): State
    requires t in s.subs
  {
    var p := s.subs[t];
    if s.tables.free == [] then
      SubMove(s, t, s.tables, p.(result := Some(NoSession), pc := SubDone)).(contentOwner := None)
    else if s.tables.free[0] == 0 then
      SubMove(s, t, Issued(s.tables), p.(sess := Some(0), result := Some(NoSession), pc := SubDone))
        .(contentOwner := None)
    else
      SubMove(s, t, Issued(s.tables), p.(sess := Some(s.tables.free[0]), pc := Register))
  }

  function AfterCheck(s: State, t: Tid): State
    requires t in s.subs && s.subs[t].sess.Some?
  {
    var p := s.subs[t];
    if p.sess.value in s.tables.found then
      SubMove(s, t, s.tables, p.(pc := Read))
    else
      SubMove(s, t, s.tables, p.(pc := AboutToSleep)).(sessLocked := s.sessLocked + {p.sess.value})
  }

  /** The content is read but not erased; when it is missing the source's assertion stops the server. */
  function AfterRead(s: State, t: Tid): State
    requires t in s.subs
  {
    var p := s.subs[t];
    if p.key in s.tables.contentMap then
      SubMove(s, t, s.tables, p.(result := Some(Got(s.tables.contentMap[p.key], true)), pc := ClearFound))
    else
      SubMove(s, t, s.tables, p.(pc := Aborted))
  }

  function After(s: State, a: Action): State
    requires Enabled(s, a)
  {
    match a
    case NewPublish(t, key, content) => s.(pubs := s.pubs[t := Publisher(key, content, 0, Store)])
    case NewSubscribe(t, key, access) => s.(subs := s.subs[t := Subscriber(key, access, None, None, Lookup)])
    case DoStore(t) => PubMove(s, t, Stored(s.tables, s.pubs[t].key, s.pubs[t].content), s.pubs[t].(pc := Claim))
    case DoClaim(t) => AfterClaim(s, t)
    case DoMark(t) => PubMove(s, t, WithFound(s.tables, s.pubs[t].target, true), s.pubs[t].(pc := Notify))
    case DoNotify(t, sleeper) =>
      var s' := PubMove(s, t, s.tables, s.pubs[t].(pc := PubDone));
      if sleeper.Some? then SubMove(s', sleeper.value, s.tables, s.subs[sleeper.value].(pc := Check)) else s'
    case DoLookup(t) => AfterLookup(s, t)
    case DoGetSess(t) => AfterGetSess(s, t)
    case DoRegister(t) =>
      SubMove(s, t, Registered(s.tables, s.subs[t].key, s.subs[t].sess.value), s.subs[t].(pc := Unlock))
    case DoUnlock(t) => SubMove(s, t, s.tables, s.subs[t].(pc := Check)).(contentOwner := None)
    case DoCheck(t) => AfterCheck(s, t)
    case DoSleep(t) =>
      SubMove(s, t, s.tables, s.subs[t].(pc := Asleep)).(sessLocked := s.sessLocked - {s.subs[t].sess.value})
    case DoWake(t) => SubMove(s, t, s.tables, s.subs[t].(pc := Check))
    case DoRead(t) => AfterRead(s, t)
    case DoClearFound(t) => SubMove(s, t, WithFound(s.tables, s.subs[t].sess.value, false), s.subs[t].(pc := GiveBack))
    case DoGiveBack(t) =>
      SubMove(s, t, Returned(s.tables, s.subs[t].sess.value), s.subs[t].(sess := None, pc := SubDone))
  }

  predicate Next(s: State, s': State, a: Action) {
    Enabled(s, a) && s' == After(s, a)
  }

  /** A run is the sequence of states it passes and of the actions between them. */
  ghost predicate Run(cfg: Config, r: seq<State>, acts: seq<Action>) {
    && |r| == |acts| + 1 && Init(cfg, r[0])
    && forall i :: 0 <= i < |acts| ==> Next(r[i], r[i + 1], acts[i])
  }

  lemma ExtendRun(cfg: Config, r: seq<State>, acts: seq<Action>, a: Action) returns (r': seq<State>, acts': seq<Action>)
    requires Run(cfg, r, acts) && Enabled(r[|acts|], a)
    ensures Run(cfg, r', acts') && acts' == acts + [a] && r'[|acts'|] == After(r[|acts|], a)
  {
    r', acts' := r + [After(r[|acts|], a)], acts + [a];
  }

  // ---------- The inductive invariant, with the thread behind each existential claim as a witness ----------

  /** Who holds a session, who is about to mark it found, who will notify it, and who is to wake the waiter of a key. */
  datatype Witness = Witness(
    holder: map<SessId, Tid>, marker: map<SessId, Tid>, notifier: map<SessId, Tid>, storer: map<Key, Tid>)

  predicate Critical(p: Subscriber) {
    p.pc == GetSess || p.pc == Register || p.pc == Unlock
  }

  /** Registered, and not yet past the condition wait. */
  predicate Waiting(p: Subscriber) {
    p.pc == Unlock || p.pc == Check || p.pc == AboutToSleep || p.pc == Asleep
  }

  predicate PastWait(p: Subscriber) {
    p.pc == Read || p.pc == ClearFound || p.pc == Aborted
  }

  predicate Sleepy(p: Subscriber) {
    p.pc == AboutToSleep || p.pc == Asleep
  }

  /** Which control points go with a session. */
  predicate PcOk(p: Subscriber) {
    && (p.pc == Lookup || p.pc == GetSess ==> p.sess == None)
    && (p.pc == SubDone && p.sess.Some? ==> p.sess == Some(0))
    && (p.pc != Lookup && p.pc != GetSess && p.pc != SubDone ==> p.sess.Some?)
  }

  predicate Holds(s: State, w: Witness, x: SessId) {
    x in w.holder && w.holder[x] in s.subs && s.subs[w.holder[x]].sess == Some(x)
  }

  predicate Awaited(s: State, w: Witness, x: SessId, k: Key) {
    Holds(s, w, x) && Waiting(s.subs[w.holder[x]]) && s.subs[w.holder[x]].key == k && x !in s.tables.found
  }

  predicate MarkPending(s: State, w: Witness, x: SessId) {
    x in w.marker && w.marker[x] in s.pubs && s.pubs[w.marker[x]].pc == Mark && s.pubs[w.marker[x]].target == x
  }

  predicate NotifyPending(s: State, w: Witness, x: SessId) {
    x in w.notifier && w.notifier[x] in s.pubs && s.pubs[w.notifier[x]].pc == Notify &&
      s.pubs[w.notifier[x]].target == x
  }

  predicate ClaimPending(s: State, w: Witness, k: Key) {
    k in w.storer && w.storer[k] in s.pubs && s.pubs[w.storer[k]].pc == Claim && s.pubs[w.storer[k]].key == k
  }

  predicate PubOk(s: State, w: Witness, t: Tid)
    requires t in s.pubs
  {
    s.pubs[t].pc == Mark ==> s.pubs[t].target in w.marker && w.marker[s.pubs[t].target] == t
  }

  predicate SubOk(s: State, w: Witness, t: Tid)
    requires t in s.subs
  {
    var p := s.subs[t];
    && PcOk(p)
    && (Critical(p) <==> s.contentOwner == Some(t))
    && (Critical(p) ==> p.key !in s.tables.contentMap)
    && (p.sess.Some? ==>
          var x := p.sess.value;
          && x in w.holder && w.holder[x] == t
          && (PastWait(p) ==> x in s.tables.found)
          && (p.pc == AboutToSleep ==> x in s.sessLocked)
          // no wakeup is lost: a sleeper whose session is already marked found is still due a notification
          && (Sleepy(p) && x in s.tables.found ==> NotifyPending(s, w, x)))
  }

  predicate SessOk(cfg: Config, s: State, w: Witness, x: SessId) {
    && (cfg.ValidSess(x) <==> x in s.tables.free || x in w.holder)
    && (x in s.tables.free ==> x !in w.holder)
    && (x in w.holder ==> Holds(s, w, x))
    && (x in w.marker ==> MarkPending(s, w, x) && Awaited(s, w, x, s.pubs[w.marker[x]].key))
    && (x in s.tables.found ==> Holds(s, w, x) && (Waiting(s.subs[w.holder[x]]) || PastWait(s.subs[w.holder[x]])))
  }

  predicate KeyOk(s: State, w: Witness, k: Key) {
    && (k in s.tables.waiterMap ==> Awaited(s, w, s.tables.waiterMap[k], k) && s.tables.waiterMap[k] !in w.marker)
    && (k in s.tables.contentMap && k in s.tables.waiterMap ==> ClaimPending(s, w, k))
  }

  ghost predicate Inv(cfg: Config, s: State, w: Witness) {
    && (forall i, j :: 0 <= i < j < |s.tables.free| ==> s.tables.free[i] != s.tables.free[j])
    && (s.contentOwner.Some? ==> s.contentOwner.value in s.subs)
    && (forall t {:trigger PubOk(s, w, t)} :: t in s.pubs ==> PubOk(s, w, t))
    && (forall t {:trigger SubOk(s, w, t)} :: t in s.subs ==> SubOk(s, w, t))
    && (forall x {:trigger SessOk(cfg, s, w, x)} :: SessOk(cfg, s, w, x))
    && (forall k {:trigger KeyOk(s, w, k)} :: KeyOk(s, w, k))
  }

  lemma InitInv(cfg: Config, s: State)
    requires Init(cfg, s)
    ensures Inv(cfg, s, Witness(map[], map[], map[], map[]))
  {
    assert forall x :: cfg.ValidSess(x) ==> s.tables.free[x - cfg.starts] == x;
  }

  function NextWitness(s: State, a: Action, w: Witness): Witness
    requires Enabled(s, a)
  {
    match a
    case DoStore(t) => w.(storer := w.storer[s.pubs[t].key := t])
    case DoClaim(t) =>
      if s.pubs[t].key in s.tables.waiterMap then w.(marker := w.marker[s.tables.waiterMap[s.pubs[t].key] := t]) else w
    case DoMark(t) => w.(marker := w.marker - {s.pubs[t].target}, notifier := w.notifier[s.pubs[t].target := t])
    case DoGetSess(t) => if s.tables.free != [] then w.(holder := w.holder[s.tables.free[0] := t]) else w
    case DoGiveBack(t) => w.(holder := w.holder - {s.subs[t].sess.value})
    case _ => w
  }

  predicate PointOk(cfg: Config, s: State, w: Witness, p: Tid, u: Tid, x: SessId, k: Key) {
    (p in s.pubs ==> PubOk(s, w, p)) && (u in s.subs ==> SubOk(s, w, u)) && SessOk(cfg, s, w, x) && KeyOk(s, w, k)
  }
  // ---------- One lemma per kind of step, on one publisher, one subscriber, one session and one key ----------

  lemma NewPublishKeeps(cfg: Config, s: State, a: Action, w: Witness, p: Tid, u: Tid, x: SessId, k: Key)
    requires a.NewPublish? && Enabled(s, a) && PointOk(cfg, s, w, p, u, x, k)
    ensures PointOk(cfg, After(s, a), NextWitness(s, a, w), p, u, x, k)
  {
  }

  lemma NewSubscribeKeeps(cfg: Config, s: State, a: Action, w: Witness, p: Tid, u: Tid, x: SessId, k: Key)
    requires a.NewSubscribe? && Enabled(s, a) && PointOk(cfg, s, w, p, u, x, k)
    requires s.contentOwner.Some? ==> s.contentOwner.value in s.subs
    ensures PointOk(cfg, After(s, a), NextWitness(s, a, w), p, u, x, k)
  {
  }

  lemma StoreKeeps(cfg: Config, s: State, a: Action, w: Witness, p: Tid, u: Tid, x: SessId, k: Key)
    requires a.DoStore? && Enabled(s, a) && PointOk(cfg, s, w, p, u, x, k)
    requires k in s.tables.waiterMap ==> SessOk(cfg, s, w, s.tables.waiterMap[k])
    requires PubOk(s, w, a.t) && SessOk(cfg, s, w, s.pubs[a.t].target) && KeyOk(s, w, s.pubs[a.t].key)
    ensures PointOk(cfg, After(s, a), NextWitness(s, a, w), p, u, x, k)
  {
  }

  lemma ClaimKeeps(cfg: Config, s: State, a: Action, w: Witness, p: Tid, u: Tid, x: SessId, k: Key)
    requires a.DoClaim? && Enabled(s, a) && PointOk(cfg, s, w, p, u, x, k)
    requires k in s.tables.waiterMap ==> SessOk(cfg, s, w, s.tables.waiterMap[k])
    requires PubOk(s, w, a.t) && SessOk(cfg, s, w, s.pubs[a.t].target) && KeyOk(s, w, s.pubs[a.t].key)
    ensures PointOk(cfg, After(s, a), NextWitness(s, a, w), p, u, x, k)
  {
  }

  lemma MarkKeeps(cfg: Config, s: State, a: Action, w: Witness, p: Tid, u: Tid, x: SessId, k: Key)
    requires a.DoMark? && Enabled(s, a) && PointOk(cfg, s, w, p, u, x, k)
    requires k in s.tables.waiterMap ==> SessOk(cfg, s, w, s.tables.waiterMap[k])
    requires PubOk(s, w, a.t) && SessOk(cfg, s, w, s.pubs[a.t].target) && KeyOk(s, w, s.pubs[a.t].key)
    ensures PointOk(cfg, After(s, a), NextWitness(s, a, w), p, u, x, k)
  {
  }

  lemma NotifyKeeps(cfg: Config, s: State, a: Action, w: Witness, p: Tid, u: Tid, x: SessId, k: Key)
    requires a.DoNotify? && Enabled(s, a) && PointOk(cfg, s, w, p, u, x, k)
    requires k in s.tables.waiterMap ==> SessOk(cfg, s, w, s.tables.waiterMap[k])
    requires PubOk(s, w, a.t) && (a.sleeper.Some? ==> SubOk(s, w, a.sleeper.value))
    ensures PointOk(cfg, After(s, a), NextWitness(s, a, w), p, u, x, k)
  {
  }

  lemma LookupKeeps(cfg: Config, s: State, a: Action, w: Witness, p: Tid, u: Tid, x: SessId, k: Key)
    requires a.DoLookup? && Enabled(s, a) && PointOk(cfg, s, w, p, u, x, k)
    requires k in s.tables.waiterMap ==> SessOk(cfg, s, w, s.tables.waiterMap[k])
    requires SubOk(s, w, a.t)
    ensures PointOk(cfg, After(s, a), NextWitness(s, a, w), p, u, x, k)
  {
  }

  lemma GetSessKeepsPublisher(s: State, a: Action, w: Witness, p: Tid)
    requires a.DoGetSess? && Enabled(s, a) && p in s.pubs && PubOk(s, w, p)
    ensures p in After(s, a).pubs && PubOk(After(s, a), NextWitness(s, a, w), p)
  {
  }

  lemma GetSessKeepsCaller(s: State, a: Action, w: Witness)
    requires a.DoGetSess? && Enabled(s, a) && SubOk(s, w, a.t)
    ensures SubOk(After(s, a), NextWitness(s, a, w), a.t)
  {
  }

  lemma GetSessKeepsOther(s: State, a: Action, w: Witness, u: Tid)
    requires a.DoGetSess? && Enabled(s, a) && SubOk(s, w, a.t) && u in s.subs && u != a.t && SubOk(s, w, u)
    requires s.tables.free != [] ==> s.tables.free[0] !in w.holder
    ensures u in After(s, a).subs && SubOk(After(s, a), NextWitness(s, a, w), u)
  {
  }

  lemma GetSessKeepsKey(s: State, a: Action, w: Witness, k: Key)
    requires a.DoGetSess? && Enabled(s, a) && SubOk(s, w, a.t) && KeyOk(s, w, k)
    requires s.tables.free != [] ==> s.tables.free[0] !in w.holder
    ensures KeyOk(After(s, a), NextWitness(s, a, w), k)
  {
  }

  lemma GetSessKeepsSession(cfg: Config, s: State, a: Action, w: Witness, x: SessId)
    requires a.DoGetSess? && Enabled(s, a) && SubOk(s, w, a.t) && SessOk(cfg, s, w, x)
    requires s.tables.free != [] ==> SessOk(cfg, s, w, s.tables.free[0])
    requires s.tables.free != [] ==> (x in s.tables.free[1..] <==> x in s.tables.free && x != s.tables.free[0])
    ensures SessOk(cfg, After(s, a), NextWitness(s, a, w), x)
  {
  }

  lemma RegisterKeeps(cfg: Config, s: State, a: Action, w: Witness, p: Tid, u: Tid, x: SessId, k: Key)
    requires a.DoRegister? && Enabled(s, a) && PointOk(cfg, s, w, p, u, x, k)
    requires k in s.tables.waiterMap ==> SessOk(cfg, s, w, s.tables.waiterMap[k])
    requires SubOk(s, w, a.t) && SessOk(cfg, s, w, s.subs[a.t].sess.value)
    ensures PointOk(cfg, After(s, a), NextWitness(s, a, w), p, u, x, k)
  {
  }

  lemma UnlockKeeps(cfg: Config, s: State, a: Action, w: Witness, p: Tid, u: Tid, x: SessId, k: Key)
    requires a.DoUnlock? && Enabled(s, a) && PointOk(cfg, s, w, p, u, x, k)
    requires k in s.tables.waiterMap ==> SessOk(cfg, s, w, s.tables.waiterMap[k])
    requires SubOk(s, w, a.t) && SessOk(cfg, s, w, s.subs[a.t].sess.value)
    ensures PointOk(cfg, After(s, a), NextWitness(s, a, w), p, u, x, k)
  {
  }

  lemma CheckKeeps(cfg: Config, s: State, a: Action, w: Witness, p: Tid, u: Tid, x: SessId, k: Key)
    requires a.DoCheck? && Enabled(s, a) && PointOk(cfg, s, w, p, u, x, k)
    requires k in s.tables.waiterMap ==> SessOk(cfg, s, w, s.tables.waiterMap[k])
    requires SubOk(s, w, a.t) && SessOk(cfg, s, w, s.subs[a.t].sess.value)
    ensures PointOk(cfg, After(s, a), NextWitness(s, a, w), p, u, x, k)
  {
  }

  lemma SleepKeeps(cfg: Config, s: State, a: Action, w: Witness, p: Tid, u: Tid, x: SessId, k: Key)
    requires a.DoSleep? && Enabled(s, a) && PointOk(cfg, s, w, p, u, x, k)
    requires k in s.tables.waiterMap ==> SessOk(cfg, s, w, s.tables.waiterMap[k])
    requires SubOk(s, w, a.t) && SessOk(cfg, s, w, s.subs[a.t].sess.value)
    ensures PointOk(cfg, After(s, a), NextWitness(s, a, w), p, u, x, k)
  {
  }

  lemma WakeKeeps(cfg: Config, s: State, a: Action, w: Witness, p: Tid, u: Tid, x: SessId, k: Key)
    requires a.DoWake? && Enabled(s, a) && PointOk(cfg, s, w, p, u, x, k)
    requires k in s.tables.waiterMap ==> SessOk(cfg, s, w, s.tables.waiterMap[k])
    requires SubOk(s, w, a.t) && SessOk(cfg, s, w, s.subs[a.t].sess.value)
    ensures PointOk(cfg, After(s, a), NextWitness(s, a, w), p, u, x, k)
  {
  }

  lemma ReadKeeps(cfg: Config, s: State, a: Action, w: Witness, p: Tid, u: Tid, x: SessId, k: Key)
    requires a.DoRead? && Enabled(s, a) && PointOk(cfg, s, w, p, u, x, k)
    requires k in s.tables.waiterMap ==> SessOk(cfg, s, w, s.tables.waiterMap[k])
    requires SubOk(s, w, a.t) && SessOk(cfg, s, w, s.subs[a.t].sess.value)
    ensures PointOk(cfg, After(s, a), NextWitness(s, a, w), p, u, x, k)
  {
  }

  lemma ClearFoundKeeps(cfg: Config, s: State, a: Action, w: Witness, p: Tid, u: Tid, x: SessId, k: Key)
    requires a.DoClearFound? && Enabled(s, a) && PointOk(cfg, s, w, p, u, x, k)
    requires k in s.tables.waiterMap ==> SessOk(cfg, s, w, s.tables.waiterMap[k])
    requires SubOk(s, w, a.t) && SessOk(cfg, s, w, s.subs[a.t].sess.value)
    ensures PointOk(cfg, After(s, a), NextWitness(s, a, w), p, u, x, k)
  {
  }

  lemma GiveBackKeeps(cfg: Config, s: State, a: Action, w: Witness, p: Tid, u: Tid, x: SessId, k: Key)
    requires a.DoGiveBack? && Enabled(s, a) && PointOk(cfg, s, w, p, u, x, k)
    requires k in s.tables.waiterMap ==> SessOk(cfg, s, w, s.tables.waiterMap[k])
    requires SubOk(s, w, a.t) && SessOk(cfg, s, w, s.subs[a.t].sess.value)
    ensures PointOk(cfg, After(s, a), NextWitness(s, a, w), p, u, x, k)
  {
  }

  predicate ByPublisher(a: Action) {
    a.NewPublish? || a.DoStore? || a.DoClaim? || a.DoMark? || a.DoNotify?
  }

  lemma PublisherPointKeeps(cfg: Config, s: State, a: Action, w: Witness, p: Tid, u: Tid, x: SessId, k: Key)
    requires Inv(cfg, s, w) && Enabled(s, a) && ByPublisher(a)
    ensures PointOk(cfg, After(s, a), NextWitness(s, a, w), p, u, x, k)
  {
    assert PointOk(cfg, s, w, p, u, x, k);
    assert k in s.tables.waiterMap ==> SessOk(cfg, s, w, s.tables.waiterMap[k]);
    match a {
      case NewPublish(_, _, _) => NewPublishKeeps(cfg, s, a, w, p, u, x, k);
      case DoStore(t) =>
        assert PubOk(s, w, t) && SessOk(cfg, s, w, s.pubs[t].target) && KeyOk(s, w, s.pubs[t].key);
        StoreKeeps(cfg, s, a, w, p, u, x, k);
      case DoClaim(t) =>
        assert PubOk(s, w, t) && SessOk(cfg, s, w, s.pubs[t].target) && KeyOk(s, w, s.pubs[t].key);
        ClaimKeeps(cfg, s, a, w, p, u, x, k);
      case DoMark(t) =>
        assert PubOk(s, w, t) && SessOk(cfg, s, w, s.pubs[t].target) && KeyOk(s, w, s.pubs[t].key);
        MarkKeeps(cfg, s, a, w, p, u, x, k);
      case DoNotify(t, sleeper) =>
        assert PubOk(s, w, t) && (sleeper.Some? ==> SubOk(s, w, sleeper.value));
        NotifyKeeps(cfg, s, a, w, p, u, x, k);
    }
  }

  /** A step of subscribeEx before its wait. */
  predicate ByEntry(a: Action) {
    a.NewSubscribe? || a.DoLookup? || a.DoGetSess? || a.DoRegister? || a.DoUnlock?
  }

  lemma EntryPointKeeps(cfg: Config, s: State, a: Action, w: Witness, p: Tid, u: Tid, x: SessId, k: Key)
    requires Inv(cfg, s, w) && Enabled(s, a) && ByEntry(a)
    ensures PointOk(cfg, After(s, a), NextWitness(s, a, w), p, u, x, k)
  {
    assert PointOk(cfg, s, w, p, u, x, k);
    assert k in s.tables.waiterMap ==> SessOk(cfg, s, w, s.tables.waiterMap[k]);
    match a {
      case NewSubscribe(_, _, _) => NewSubscribeKeeps(cfg, s, a, w, p, u, x, k);
      case DoLookup(t) =>
        assert SubOk(s, w, t);
        LookupKeeps(cfg, s, a, w, p, u, x, k);
      case DoGetSess(t) =>
        assert SubOk(s, w, t);
        if s.tables.free != [] {
          assert SessOk(cfg, s, w, s.tables.free[0]);
          TailMembers(s.tables.free, x);
        }
        if p in s.pubs {
          GetSessKeepsPublisher(s, a, w, p);
        }
        GetSessKeepsCaller(s, a, w);
        if u in s.subs && u != t {
          GetSessKeepsOther(s, a, w, u);
        }
        GetSessKeepsKey(s, a, w, k);
        GetSessKeepsSession(cfg, s, a, w, x);
      case DoRegister(t) =>
        assert SubOk(s, w, t) && SessOk(cfg, s, w, s.subs[t].sess.value);
        RegisterKeeps(cfg, s, a, w, p, u, x, k);
      case DoUnlock(t) =>
        assert SubOk(s, w, t) && SessOk(cfg, s, w, s.subs[t].sess.value);
        UnlockKeeps(cfg, s, a, w, p, u, x, k);
    }
  }

  lemma WaitPointKeeps(cfg: Config, s: State, a: Action, w: Witness, p: Tid, u: Tid, x: SessId, k: Key)
    requires Inv(cfg, s, w) && Enabled(s, a) && !ByPublisher(a) && !ByEntry(a)
    ensures PointOk(cfg, After(s, a), NextWitness(s, a, w), p, u, x, k)
  {
    assert PointOk(cfg, s, w, p, u, x, k);
    assert k in s.tables.waiterMap ==> SessOk(cfg, s, w, s.tables.waiterMap[k]);
    match a {
      case DoCheck(t) =>
        assert SubOk(s, w, t) && SessOk(cfg, s, w, s.subs[t].sess.value);
        CheckKeeps(cfg, s, a, w, p, u, x, k);
      case DoSleep(t) =>
        assert SubOk(s, w, t) && SessOk(cfg, s, w, s.subs[t].sess.value);
        SleepKeeps(cfg, s, a, w, p, u, x, k);
      case DoWake(t) =>
        assert SubOk(s, w, t) && SessOk(cfg, s, w, s.subs[t].sess.value);
        WakeKeeps(cfg, s, a, w, p, u, x, k);
      case DoRead(t) =>
        assert SubOk(s, w, t) && SessOk(cfg, s, w, s.subs[t].sess.value);
        ReadKeeps(cfg, s, a, w, p, u, x, k);
      case DoClearFound(t) =>
        assert SubOk(s, w, t) && SessOk(cfg, s, w, s.subs[t].sess.value);
        ClearFoundKeeps(cfg, s, a, w, p, u, x, k);
      case DoGiveBack(t) =>
        assert SubOk(s, w, t) && SessOk(cfg, s, w, s.subs[t].sess.value);
        GiveBackKeeps(cfg, s, a, w, p, u, x, k);
    }
  }

  lemma FreeStaysDistinct(cfg: Config, s: State, a: Action, w: Witness)
    requires Inv(cfg, s, w) && Enabled(s, a)
    ensures Distinct(After(s, a).tables.free)
  {
    if a.DoGiveBack? {
      assert SubOk(s, w, a.t) && SessOk(cfg, s, w, s.subs[a.t].sess.value);
    }
  }

  lemma OwnerStaysKnown(cfg: Config, s: State, a: Action, w: Witness)
    requires Inv(cfg, s, w) && Enabled(s, a)
    ensures var s' := After(s, a); s'.contentOwner.Some? ==> s'.contentOwner.value in s'.subs
  {
  }

  lemma StepInv(cfg: Config, s: State, a: Action, w: Witness)
    requires Inv(cfg, s, w) && Enabled(s, a)
    ensures Inv(cfg, After(s, a), NextWitness(s, a, w))
  {
    var s', w' := After(s, a), NextWitness(s, a, w);
    FreeStaysDistinct(cfg, s, a, w);
    OwnerStaysKnown(cfg, s, a, w);
    forall p, u, x, k ensures PointOk(cfg, s', w', p, u, x, k) {
      if ByPublisher(a) {
        PublisherPointKeeps(cfg, s, a, w, p, u, x, k);
      } else if ByEntry(a) {
        EntryPointKeeps(cfg, s, a, w, p, u, x, k);
      } else {
        WaitPointKeeps(cfg, s, a, w, p, u, x, k);
      }
    }
    forall t | t in s'.pubs ensures PubOk(s', w', t) {
      assert PointOk(cfg, s', w', t, 0, 0, 0);
    }
    forall t | t in s'.subs ensures SubOk(s', w', t) {
      assert PointOk(cfg, s', w', 0, t, 0, 0);
    }
    forall x ensures SessOk(cfg, s', w', x) {
      assert PointOk(cfg, s', w', 0, 0, x, 0);
    }
    forall k ensures KeyOk(s', w', k) {
      assert PointOk(cfg, s', w', 0, 0, 0, k);
    }
  }

  lemma {:induction false} RunInv(cfg: Config, r: seq<State>, acts: seq<Action>, i: nat) returns (w: Witness)
    requires Run(cfg, r, acts) && i < |r|
    ensures Inv(cfg, r[i], w)
  {
    if i == 0 {
      InitInv(cfg, r[0]);
      w := Witness(map[], map[], map[], map[]);
    } else {
      var before := RunInv(cfg, r, acts, i - 1);
      assert Next(r[i - 1], r[i], acts[i - 1]);
      StepInv(cfg, r[i - 1], acts[i - 1], before);
      w := NextWitness(r[i - 1], acts[i - 1], before);
    }
  }

  // ---------- The same facts about every reachable state, without the witness ----------

  ghost predicate Holder(s: State, x: SessId, t: Tid) {
    t in s.subs && s.subs[t].sess == Some(x)
  }

  ghost predicate Held(s: State, x: SessId) {
    exists t :: Holder(s, x, t)
  }

  ghost predicate SomePublisherAt(s: State, pc: PubPc, x: SessId) {
    exists t :: PubAt(s, t, pc) && s.pubs[t].target == x
  }

  /**
   * The free list and the sessions in use partition the range; a free session is unmarked, and nobody is about to mark
   * it.
   */
  lemma SessionsConserved(cfg: Config, r: seq<State>, acts: seq<Action>, i: nat)
    requires Run(cfg, r, acts) && i < |r|
    ensures Distinct(r[i].tables.free)
    ensures forall x :: cfg.ValidSess(x) <==> x in r[i].tables.free || Held(r[i], x)
    ensures forall x :: x in r[i].tables.free ==>
            !Held(r[i], x) && x !in r[i].tables.found && !SomePublisherAt(r[i], Mark, x)
    ensures forall x, t, u :: Holder(r[i], x, t) && Holder(r[i], x, u) ==> t == u
  {
    var s := r[i];
    var w := RunInv(cfg, r, acts, i);
    forall x, t | Holder(s, x, t) ensures x in w.holder && w.holder[x] == t {
      assert SubOk(s, w, t);
    }
    forall x, t | PubAt(s, t, Mark) && s.pubs[t].target == x ensures x in w.marker && w.marker[x] == t {
      assert PubOk(s, w, t);
    }
    forall x ensures (cfg.ValidSess(x) <==> x in s.tables.free || Held(s, x))
                     && (x in s.tables.free ==> !Held(s, x) && x !in s.tables.found && !SomePublisherAt(s, Mark, x))
    {
      assert SessOk(cfg, s, w, x);
      assert x in w.holder ==> Holder(s, x, w.holder[x]);
    }
  }

  /** Each registered session belongs to one waiting subscriber of that key, so no two keys share a session. */
  lemma WaiterMapInjective(cfg: Config, r: seq<State>, acts: seq<Action>, i: nat)
    requires Run(cfg, r, acts) && i < |r|
    ensures var m := r[i].tables.waiterMap;
            && (forall k :: k in m ==>
                  exists t :: Holder(r[i], m[k], t) && Waiting(r[i].subs[t]) && r[i].subs[t].key == k)
            && (forall k, l :: k in m && l in m && m[k] == m[l] ==> k == l)
  {
    var s := r[i];
    var m := s.tables.waiterMap;
    var w := RunInv(cfg, r, acts, i);
    forall k | k in m ensures Awaited(s, w, m[k], k) && Holder(s, m[k], w.holder[m[k]]) {
      assert KeyOk(s, w, k);
    }
  }

  /** A key is both published and awaited only while some publisher of it is between its two critical sections. */
  lemma BothOnlyBetweenSections(cfg: Config, r: seq<State>, acts: seq<Action>, i: nat, k: Key)
    requires Run(cfg, r, acts) && i < |r|
    requires k in r[i].tables.contentMap && k in r[i].tables.waiterMap
    ensures exists t :: PubAt(r[i], t, Claim) && r[i].pubs[t].key == k
  {
    var w := RunInv(cfg, r, acts, i);
    assert KeyOk(r[i], w, k);
    assert PubAt(r[i], w.storer[k], Claim);
  }

  /** A subscriber asleep on a session already marked found has a publisher still due to notify it. */
  lemma NoLostWakeup(cfg: Config, r: seq<State>, acts: seq<Action>, i: nat, t: Tid)
    requires Run(cfg, r, acts) && i < |r|
    requires SubWithSess(r[i], t, Asleep) && r[i].subs[t].sess.value in r[i].tables.found
    ensures SomePublisherAt(r[i], Notify, r[i].subs[t].sess.value)
  {
    var w := RunInv(cfg, r, acts, i);
    assert SubOk(r[i], w, t);
    assert PubAt(r[i], w.notifier[r[i].subs[t].sess.value], Notify);
  }

  /** The source's assertions on session indices and on found hold wherever they are reached. */
  lemma SessionAssertionsHold(cfg: Config, r: seq<State>, acts: seq<Action>, i: nat, t: Tid)
    requires Run(cfg, r, acts) && i < |r|
    ensures PubAt(r[i], t, Mark) ==> cfg.ValidSess(r[i].pubs[t].target)
    ensures t in r[i].subs && r[i].subs[t].sess.Some? ==> cfg.ValidSess(r[i].subs[t].sess.value)
    ensures SubAt(r[i], t, Read) ==> r[i].subs[t].sess.Some? && r[i].subs[t].sess.value in r[i].tables.found
  {
    var s := r[i];
    var w := RunInv(cfg, r, acts, i);
    if PubAt(s, t, Mark) {
      assert PubOk(s, w, t) && SessOk(cfg, s, w, s.pubs[t].target);
    }
    if t in s.subs {
      assert SubOk(s, w, t);
      assert s.subs[t].sess.Some? ==> SessOk(cfg, s, w, s.subs[t].sess.value);
    }
  }

  ghost predicate AllHeld(cfg: Config, s: State) {
    forall x :: cfg.ValidSess(x) ==> Held(s, x)
  }

  /**
   * subscribeEx reports that no session is free when all are in use, and also when the next free one has the ID 0; IDs
   * that start above 0 rule that out.
   */
  lemma NoSessionOnlyWhenAllHeld(cfg: Config, r: seq<State>, acts: seq<Action>, i: nat, t: Tid)
    requires Run(cfg, r, acts) && i < |acts| && acts[i] == DoGetSess(t)
    ensures var failed := r[i + 1].subs[t].result == Some(NoSession) && r[i + 1].subs[t].pc == SubDone;
            && (failed <==> AllHeld(cfg, r[i]) || (r[i].tables.free != [] && r[i].tables.free[0] == 0))
            && (cfg.starts > 0 ==> (failed <==> AllHeld(cfg, r[i])))
  {
    assert Next(r[i], r[i + 1], acts[i]);
    SessionsConserved(cfg, r, acts, i);
    var free := r[i].tables.free;
    if free != [] {
      assert free[0] in free;
      assert cfg.ValidSess(free[0]) && !Held(r[i], free[0]);
    }
  }
}
