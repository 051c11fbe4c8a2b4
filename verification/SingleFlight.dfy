/** `get_range` as a protocol: any number of calls, interleaved between critical sections. */
module SingleFlight {
  import opened Common
  import opened RangeStore

  /** What an upstream fetch came back with. */
  datatype Outcome = Data(bytes: seq<byte>) | Failed(exc: nat)

  datatype Exception = Upstream(exc: nat) | CompletedWithoutData

  datatype Pc =
    | Ready                                    // about to take the lock
    | Fetching(sid: nat)                       // owner, talking to the upstream
    | Answered(sid: nat, outcome: Outcome)     // owner, about to take the lock again
    | Notifying(sid: nat, outcome: Outcome)    // owner, published, event not yet set
    | Waiting(sid: nat)                        // asleep on somebody else's event
    | Counting(sid: nat)                       // woken with data, about to count its bytes
    | Returned(data: seq<byte>)
    | Raised(reason: Exception)

  /** How the first critical section disposed of a call. */
  datatype Via = Unadmitted | ByCache | ByOwning(sid: nat) | ByJoining(sid: nat)

  /** `via` is history: no step reads it. */
  datatype Call = Call(key: Key, pc: Pc, via: Via)

  /** History, read by no step: the keys fetched successfully, the keys asked for, and the call
      that created each FetchState. */
  datatype History = History(fetched: multiset<Key>, requested: set<Key>, creator: seq<nat>)

  datatype System = System(store: Store, calls: seq<Call>, h: History)

  datatype Event =
    | Arrive(key: Key)
    | Enter(i: nat)
    | AnswerData(i: nat)
    | AnswerError(i: nat, exc: nat)
    | Publish(i: nat)
    | Notify(i: nat)
    | Wake(i: nat)
    | Count(i: nat)

  const INIT := System(EMPTY, [], History(multiset{}, {}, []))

  predicate InBlob(blob: seq<byte>, k: Key) {
    k.len >= 1 && k.start + k.len <= |blob|
  }

  function Slice(blob: seq<byte>, k: Key): seq<byte>
    requires InBlob(blob, k)
  {
    blob[k.start..k.start + k.len]
  }

  predicate Finished(c: Call) {
    c.pc.Returned? || c.pc.Raised?
  }

  predicate Owns(c: Call, sid: nat) {
    (c.pc.Fetching? || c.pc.Answered? || c.pc.Notifying?) && c.pc.sid == sid
  }

  predicate Enabled(blob: seq<byte>, s: System, ev: Event) {
    match ev
    case Arrive(k) => k.len >= 1
    case Enter(i) => i < |s.calls| && s.calls[i].pc.Ready?
    case AnswerData(i) => i < |s.calls| && s.calls[i].pc.Fetching? && InBlob(blob, s.calls[i].key)
    case AnswerError(i, _) => i < |s.calls| && s.calls[i].pc.Fetching?
    case Publish(i) =>
      i < |s.calls| && s.calls[i].pc.Answered? && s.calls[i].pc.sid < |s.store.states|
    case Notify(i) =>
      i < |s.calls| && s.calls[i].pc.Notifying? && s.calls[i].pc.sid < |s.store.states|
    case Wake(i) =>
      && i < |s.calls| && s.calls[i].pc.Waiting? && s.calls[i].pc.sid < |s.store.states|
      && s.store.states[s.calls[i].pc.sid].event
    case Count(i) =>
      && i < |s.calls| && s.calls[i].pc.Counting? && s.calls[i].pc.sid < |s.store.states|
      && s.store.states[s.calls[i].pc.sid].data.Some?
  }

  function Move(s: System, store: Store, i: nat, pc: Pc): System
    requires i < |s.calls|
  {
    s.(store := store, calls := s.calls[i := s.calls[i].(pc := pc)])
  }

  function AfterEnter(a: Admission): Pc {
    match a
    case Hit(data) => Returned(data)
    case Own(sid) => Fetching(sid)
    case Join(sid) => Waiting(sid)
  }

  function ViaOf(a: Admission): Via {
    match a
    case Hit(_) => ByCache
    case Own(sid) => ByOwning(sid)
    case Join(sid) => ByJoining(sid)
  }

  function AfterWake(st: FetchState, sid: nat): Pc {
    if st.error.Some? then Raised(Upstream(st.error.value))
    else if st.data.None? then Raised(CompletedWithoutData)
    else Counting(sid)
  }

  function Published(s: Store, k: Key, sid: nat, o: Outcome): Store
    requires sid < |s.states|
  {
    match o
    case Data(bytes) => PublishData(s, k, sid, bytes)
    case Failed(exc) => PublishError(s, k, sid, exc)
  }

  function Concluded(o: Outcome): Pc {
    match o
    case Data(bytes) => Returned(bytes)
    case Failed(exc) => Raised(Upstream(exc))
  }

  function HistoryAfterEnter(h: History, k: Key, a: Admission, i: nat): History {
    h.(requested := h.requested + {k}, creator := if a.Own? then h.creator + [i] else h.creator)
  }

  function Step(blob: seq<byte>, s: System, ev: Event): System
    requires Enabled(blob, s, ev)
  {
    match ev
    case Arrive(k) => s.(calls := s.calls + [Call(k, Ready, Unadmitted)])
    case Enter(i) =>
      var key := s.calls[i].key;
      var (store, a) := Admit(s.store, key);
      System(store, s.calls[i := Call(key, AfterEnter(a), ViaOf(a))], HistoryAfterEnter(s.h, key, a, i))
    case AnswerData(i) =>
      var c := s.calls[i];
      Move(s, s.store, i, Answered(c.pc.sid, Data(Slice(blob, c.key))))
        .(h := s.h.(fetched := s.h.fetched + multiset{c.key}))
    case AnswerError(i, exc) => Move(s, s.store, i, Answered(s.calls[i].pc.sid, Failed(exc)))
    case Publish(i) =>
      var c := s.calls[i];
      Move(s, Published(s.store, c.key, c.pc.sid, c.pc.outcome), i, Notifying(c.pc.sid, c.pc.outcome))
    case Notify(i) =>
      var c := s.calls[i];
      Move(s, SetEvent(s.store, c.pc.sid), i, Concluded(c.pc.outcome))
    case Wake(i) =>
      var sid := s.calls[i].pc.sid;
      Move(s, s.store, i, AfterWake(s.store.states[sid], sid))
    case Count(i) =>
      var data := s.store.states[s.calls[i].pc.sid].data.value;
      Move(s, CountServed(s.store, |data|), i, Returned(data))
  }

  // ---------------------------------------------------------------- runs

  predicate Legal(blob: seq<byte>, s: System, evs: seq<Event>)
    decreases |evs|
  {
    evs == [] || (Enabled(blob, s, evs[0]) && Legal(blob, Step(blob, s, evs[0]), evs[1..]))
  }

  function Exec(blob: seq<byte>, s: System, evs: seq<Event>): System
    requires Legal(blob, s, evs)
    decreases |evs|
  {
    if evs == [] then s else Exec(blob, Step(blob, s, evs[0]), evs[1..])
  }

  // ---------------------------------------------------------------- invariant

  ghost predicate OutcomeOk(blob: seq<byte>, k: Key, o: Outcome) {
    o.Data? ==> InBlob(blob, k) && o.bytes == Slice(blob, k)
  }

  /** A FetchState that has been filled in for key k. */
  ghost predicate Completed(blob: seq<byte>, k: Key, st: FetchState) {
    && st.data.Some? != st.error.Some?
    && (st.data.Some? ==> OutcomeOk(blob, k, Data(st.data.value)))
  }

  ghost predicate Claimed(s: Store, k: Key, sid: nat) {
    k in s.inflight && s.inflight[k] == sid
  }

  /** What call i relies on, by where it stands. */
  ghost predicate CallOk(blob: seq<byte>, s: Store, h: History, i: nat, c: Call) {
    c.key.len >= 1 && (c.pc.Ready? || c.key in h.requested) && (c.pc.Ready? <==> c.via.Unadmitted?) &&
    match c.pc
    case Ready => true
    case Fetching(sid) =>
      Claimed(s, c.key, sid) && c.key !in h.fetched && Created(h, sid, i) && c.via == ByOwning(sid)
    case Answered(sid, o) =>
      && Claimed(s, c.key, sid) && OutcomeOk(blob, c.key, o) && Created(h, sid, i) && c.via == ByOwning(sid)
      && (o.Failed? ==> c.key !in h.fetched)
    case Notifying(sid, o) =>
      && sid < |s.states| && !Claimed(s, c.key, sid) && OutcomeOk(blob, c.key, o) && Created(h, sid, i)
      && s.states[sid] == Filled(o) && c.via == ByOwning(sid)
    case Waiting(sid) =>
      && sid < |s.states| && c.via == ByJoining(sid)
      && (Claimed(s, c.key, sid) || (Completed(blob, c.key, s.states[sid]) &&
                                     (s.states[sid].data.Some? ==> c.key in s.cache)))
    case Counting(sid) =>
      && sid < |s.states| && s.states[sid].error.None? && s.states[sid].data.Some?
      && Completed(blob, c.key, s.states[sid]) && c.key in s.cache && c.via == ByJoining(sid)
    case Returned(data) =>
      OutcomeOk(blob, c.key, Data(data)) && (c.via.ByCache? || (OnState(s, c.via) && s.states[c.via.sid].data.Some?))
    case Raised(reason) => reason.Upstream? && OnState(s, c.via) && s.states[c.via.sid].error == Some(reason.exc)
  }

  /** The call went by a FetchState: its own or the one it joined. */
  ghost predicate OnState(s: Store, via: Via) {
    (via.ByOwning? || via.ByJoining?) && via.sid < |s.states|
  }

  function Filled(o: Outcome): FetchState {
    match o
    case Data(bytes) => FetchState(false, Some(bytes), None)
    case Failed(exc) => FetchState(false, None, Some(exc))
  }

  ghost predicate Created(h: History, sid: nat, i: nat) {
    sid < |h.creator| && h.creator[sid] == i
  }

  ghost predicate StoreOk(blob: seq<byte>, s: Store) {
    && s.cache.Keys !! s.inflight.Keys
    && (forall k :: k in s.cache ==> InBlob(blob, k) && s.cache[k] == Slice(blob, k))
    && (forall k :: k in s.inflight ==> s.inflight[k] < |s.states| && s.states[s.inflight[k]] == BLANK)
    && (forall j, k :: j in s.inflight && k in s.inflight && s.inflight[j] == s.inflight[k] ==> j == k)
  }

  /** A FetchState whose event is not set still has its creator at work on it. */
  ghost predicate StateOk(st: FetchState, calls: seq<Call>, owner: nat, sid: nat) {
    if st.event then st.data.Some? != st.error.Some?
    else owner < |calls| && Owns(calls[owner], sid)
  }

  ghost predicate StatesOk(s: System) {
    && |s.h.creator| == |s.store.states|
    && forall sid :: 0 <= sid < |s.store.states| ==>
         StateOk(s.store.states[sid], s.calls, s.h.creator[sid], sid)
  }

  /** Bytes already added to `bytes_served` on behalf of a call. */
  function Served(c: Call): nat {
    if c.pc.Returned? || (c.pc.Notifying? && c.pc.outcome.Data?) then c.key.len else 0
  }

  function Admitted(c: Call): nat { if c.via.Unadmitted? then 0 else 1 }
  function HitCache(c: Call): nat { if c.via.ByCache? then 1 else 0 }
  function Joined(c: Call): nat { if c.via.ByJoining? then 1 else 0 }
  function Owned(c: Call): nat { if c.via.ByOwning? then 1 else 0 }

  ghost predicate HistoryOk(s: Store, h: History) {
    && (forall k :: h.fetched[k] <= 1)
    && (forall k :: k in h.fetched ==> k in s.cache || k in s.inflight)
    && (forall k :: k in s.cache || k in s.inflight ==> k in h.requested)
    && (s.c.remoteErrors == 0 ==> h.requested == s.cache.Keys + s.inflight.Keys)
  }

  ghost predicate TotalsOk(s: System) {
    && Balanced(s.store)
    && s.store.c.bytesServed == SumBy(Served, s.calls)
    && s.store.c.clientRequests == SumBy(Admitted, s.calls)
    && s.store.c.cacheHits == SumBy(HitCache, s.calls)
    && s.store.c.inflightHits == SumBy(Joined, s.calls)
    && s.store.c.remoteRequests == SumBy(Owned, s.calls)
  }

  ghost predicate CallsOk(blob: seq<byte>, s: System) {
    forall i :: 0 <= i < |s.calls| ==> CallOk(blob, s.store, s.h, i, s.calls[i])
  }

  /** The protocol invariant. */
  ghost predicate Inv(blob: seq<byte>, s: System) {
    StoreOk(blob, s.store) && CallsOk(blob, s) && StatesOk(s) && HistoryOk(s.store, s.h)
  }

  // ---------------------------------------------------------------- every step keeps it

  /** A move that wakes nobody and gives up no ownership leaves every FetchState covered. */
  lemma StatesStay(s: System, store: Store, i: nat, pc: Pc)
    requires StatesOk(s) && i < |s.calls| && |store.states| == |s.store.states|
    requires forall sid :: 0 <= sid < |store.states| ==>
               store.states[sid] == s.store.states[sid] || (!store.states[sid].event && !s.store.states[sid].event)
    requires forall sid: nat :: Owns(s.calls[i], sid) ==> Owns(s.calls[i].(pc := pc), sid)
    ensures StatesOk(Move(s, store, i, pc))
  {
    var t := Move(s, store, i, pc);
    forall sid | 0 <= sid < |store.states|
      ensures StateOk(store.states[sid], t.calls, s.h.creator[sid], sid)
    {
      assert StateOk(s.store.states[sid], s.calls, s.h.creator[sid], sid);
    }
  }

  lemma ArriveKeeps(blob: seq<byte>, s: System, k: Key)
    requires Inv(blob, s) && k.len >= 1
    ensures Inv(blob, Step(blob, s, Arrive(k)))
  {
  }

  lemma EnterFrame(blob: seq<byte>, s: Store, h: History, k: Key, i: nat, j: nat, c: Call)
    requires StoreOk(blob, s) && |h.creator| == |s.states| && CallOk(blob, s, h, j, c)
    ensures CallOk(blob, Admit(s, k).0, HistoryAfterEnter(h, k, Admit(s, k).1, i), j, c)
  {
  }

  lemma EnterOther(blob: seq<byte>, s: Store, h: History, k: Key, i: nat)
    requires StoreOk(blob, s) && HistoryOk(s, h) && |h.creator| == |s.states| && k.len >= 1
    ensures CallOk(blob, Admit(s, k).0, HistoryAfterEnter(h, k, Admit(s, k).1, i), i,
              Call(k, AfterEnter(Admit(s, k).1), ViaOf(Admit(s, k).1)))
  {
  }

  lemma EnterStates(s: System, i: nat, key: Key)
    requires StatesOk(s) && i < |s.calls| && s.calls[i].key == key && s.calls[i].pc.Ready?
    ensures StatesOk(Step([], s, Enter(i)))
  {
    var t := Step([], s, Enter(i));
    forall sid | 0 <= sid < |t.store.states|
      ensures StateOk(t.store.states[sid], t.calls, t.h.creator[sid], sid)
    {
      if sid < |s.store.states| {
        assert StateOk(s.store.states[sid], s.calls, s.h.creator[sid], sid);
      }
    }
  }

  lemma EnterStore(blob: seq<byte>, s: Store, k: Key)
    requires StoreOk(blob, s)
    ensures StoreOk(blob, Admit(s, k).0)
  {
  }

  lemma EnterHistory(s: Store, h: History, k: Key, i: nat)
    requires HistoryOk(s, h)
    ensures HistoryOk(Admit(s, k).0, HistoryAfterEnter(h, k, Admit(s, k).1, i))
  {
  }

  lemma EnterCalls(blob: seq<byte>, s: System, i: nat)
    requires Inv(blob, s) && Enabled(blob, s, Enter(i))
    ensures CallsOk(blob, Step(blob, s, Enter(i)))
  {
    var t, k := Step(blob, s, Enter(i)), s.calls[i].key;
    EnterOther(blob, s.store, s.h, k, i);
    forall j | 0 <= j < |t.calls| ensures CallOk(blob, t.store, t.h, j, t.calls[j]) {
      EnterFrame(blob, s.store, s.h, k, i, j, s.calls[j]);
    }
  }

  lemma EnterKeeps(blob: seq<byte>, s: System, i: nat)
    requires Inv(blob, s) && Enabled(blob, s, Enter(i))
    ensures Inv(blob, Step(blob, s, Enter(i)))
  {
    var k := s.calls[i].key;
    EnterStates(s, i, k);
    EnterStore(blob, s.store, k);
    EnterHistory(s.store, s.h, k, i);
    EnterCalls(blob, s, i);
  }

  lemma AnswerFrame(blob: seq<byte>, s: Store, h: History, i: nat, c: Call, j: nat, d: Call)
    requires CallOk(blob, s, h, i, c) && c.pc.Fetching? && CallOk(blob, s, h, j, d) && i != j
    ensures CallOk(blob, s, h.(fetched := h.fetched + multiset{c.key}), j, d)
  {
  }

  lemma AnswerHistory(s: Store, h: History, k: Key, sid: nat)
    requires HistoryOk(s, h) && Claimed(s, k, sid) && k !in h.fetched
    ensures HistoryOk(s, h.(fetched := h.fetched + multiset{k}))
  {
  }

  lemma AnswerKeeps(blob: seq<byte>, s: System, ev: Event)
    requires Inv(blob, s) && Enabled(blob, s, ev) && (ev.AnswerData? || ev.AnswerError?)
    ensures Inv(blob, Step(blob, s, ev))
  {
    var t, i, c := Step(blob, s, ev), ev.i, s.calls[ev.i];
    assert CallOk(blob, s.store, s.h, i, c);
    StatesStay(s, s.store, i, t.calls[i].pc);
    AnswerHistory(s.store, s.h, c.key, c.pc.sid);
    forall j | 0 <= j < |t.calls| ensures CallOk(blob, t.store, t.h, j, t.calls[j]) {
      assert CallOk(blob, s.store, s.h, j, s.calls[j]);
      if i != j { AnswerFrame(blob, s.store, s.h, i, c, j, s.calls[j]); }
    }
  }

  lemma PublishFrame(blob: seq<byte>, s: Store, h: History, i: nat, c: Call, j: nat, d: Call)
    requires StoreOk(blob, s) && CallOk(blob, s, h, i, c) && c.pc.Answered? && CallOk(blob, s, h, j, d) && i != j
    ensures CallOk(blob, Published(s, c.key, c.pc.sid, c.pc.outcome), h, j, d)
  {
  }

  lemma PublishStore(blob: seq<byte>, s: Store, h: History, i: nat, c: Call)
    requires StoreOk(blob, s) && HistoryOk(s, h) && CallOk(blob, s, h, i, c) && c.pc.Answered?
    ensures StoreOk(blob, Published(s, c.key, c.pc.sid, c.pc.outcome))
    ensures HistoryOk(Published(s, c.key, c.pc.sid, c.pc.outcome), h)
  {
  }

  lemma PublishKeeps(blob: seq<byte>, s: System, i: nat)
    requires Inv(blob, s) && Enabled(blob, s, Publish(i))
    ensures Inv(blob, Step(blob, s, Publish(i)))
  {
    var t, c := Step(blob, s, Publish(i)), s.calls[i];
    assert CallOk(blob, s.store, s.h, i, c);
    StatesStay(s, t.store, i, t.calls[i].pc);
    PublishStore(blob, s.store, s.h, i, c);
    forall j | 0 <= j < |t.calls| ensures CallOk(blob, t.store, t.h, j, t.calls[j]) {
      if i != j { PublishFrame(blob, s.store, s.h, i, c, j, s.calls[j]); }
    }
  }

  lemma NotifyFrame(blob: seq<byte>, s: Store, h: History, i: nat, c: Call, j: nat, d: Call)
    requires StoreOk(blob, s) && CallOk(blob, s, h, i, c) && c.pc.Notifying? && CallOk(blob, s, h, j, d) && i != j
    ensures CallOk(blob, SetEvent(s, c.pc.sid), h, j, d)
  {
  }

  lemma NotifyStates(s: System, i: nat, pc: Pc)
    requires StatesOk(s) && i < |s.calls| && s.calls[i].pc.Notifying?
    requires Created(s.h, s.calls[i].pc.sid, i) && s.store.states[s.calls[i].pc.sid] == Filled(s.calls[i].pc.outcome)
    ensures StatesOk(Move(s, SetEvent(s.store, s.calls[i].pc.sid), i, pc))
  {
    var t := Move(s, SetEvent(s.store, s.calls[i].pc.sid), i, pc);
    forall sid | 0 <= sid < |t.store.states|
      ensures StateOk(t.store.states[sid], t.calls, s.h.creator[sid], sid)
    {
      assert StateOk(s.store.states[sid], s.calls, s.h.creator[sid], sid);
    }
  }

  lemma NotifyKeeps(blob: seq<byte>, s: System, i: nat)
    requires Inv(blob, s) && Enabled(blob, s, Notify(i))
    ensures Inv(blob, Step(blob, s, Notify(i)))
  {
    var t, c := Step(blob, s, Notify(i)), s.calls[i];
    assert CallOk(blob, s.store, s.h, i, c);
    NotifyStates(s, i, t.calls[i].pc);
    forall j | 0 <= j < |t.calls| ensures CallOk(blob, t.store, t.h, j, t.calls[j]) {
      if i != j { NotifyFrame(blob, s.store, s.h, i, c, j, s.calls[j]); }
    }
  }

  lemma WakeKeeps(blob: seq<byte>, s: System, i: nat)
    requires Inv(blob, s) && Enabled(blob, s, Wake(i))
    ensures Inv(blob, Step(blob, s, Wake(i)))
  {
    var t := Step(blob, s, Wake(i));
    assert CallOk(blob, s.store, s.h, i, s.calls[i]);
    StatesStay(s, t.store, i, t.calls[i].pc);
  }

  lemma CountFrame(blob: seq<byte>, s: Store, h: History, n: nat, j: nat, d: Call)
    requires CallOk(blob, s, h, j, d)
    ensures CallOk(blob, CountServed(s, n), h, j, d)
  {
  }

  lemma CountKeeps(blob: seq<byte>, s: System, i: nat)
    requires Inv(blob, s) && Enabled(blob, s, Count(i))
    ensures Inv(blob, Step(blob, s, Count(i)))
  {
    var t := Step(blob, s, Count(i));
    StatesStay(s, t.store, i, t.calls[i].pc);
    forall j | 0 <= j < |t.calls| ensures CallOk(blob, t.store, t.h, j, t.calls[j]) {
      CountFrame(blob, s.store, s.h, |t.calls[i].pc.data|, j, s.calls[j]);
    }
  }

  lemma StepKeeps(blob: seq<byte>, s: System, ev: Event)
    requires Inv(blob, s) && Enabled(blob, s, ev)
    ensures Inv(blob, Step(blob, s, ev))
  {
    match ev {
      case Arrive(k) => ArriveKeeps(blob, s, k);
      case Enter(i) => EnterKeeps(blob, s, i);
      case AnswerData(_) => AnswerKeeps(blob, s, ev);
      case AnswerError(_, _) => AnswerKeeps(blob, s, ev);
      case Publish(i) => PublishKeeps(blob, s, i);
      case Notify(i) => NotifyKeeps(blob, s, i);
      case Wake(i) => WakeKeeps(blob, s, i);
      case Count(i) => CountKeeps(blob, s, i);
    }
  }

  lemma {:induction false} RunKeeps(blob: seq<byte>, s: System, evs: seq<Event>)
    requires Inv(blob, s) && Legal(blob, s, evs)
    ensures Inv(blob, Exec(blob, s, evs))
    decreases |evs|
  {
    if evs != [] {
      StepKeeps(blob, s, evs[0]);
      RunKeeps(blob, Step(blob, s, evs[0]), evs[1..]);
    }
  }

  // ---------------------------------------------------------------- accounting

  lemma PublishTotals(s: Store, k: Key, sid: nat, o: Outcome)
    requires Balanced(s) && sid < |s.states| && k in s.inflight && k !in s.cache && (o.Data? ==> |o.bytes| >= 1)
    ensures Balanced(Published(s, k, sid, o))
  {
    match o {
      case Data(bytes) => PublishBalanced(s, k, sid, bytes, 0);
      case Failed(exc) => PublishBalanced(s, k, sid, [], exc);
    }
  }

  lemma MoveTotals(s: System, t: System, i: nat)
    requires TotalsOk(s) && Balanced(t.store) && i < |s.calls| == |t.calls| && t.calls == s.calls[i := t.calls[i]]
    requires t.store.c.bytesServed == s.store.c.bytesServed - Served(s.calls[i]) + Served(t.calls[i])
    requires t.store.c.clientRequests == s.store.c.clientRequests - Admitted(s.calls[i]) + Admitted(t.calls[i])
    requires t.store.c.cacheHits == s.store.c.cacheHits - HitCache(s.calls[i]) + HitCache(t.calls[i])
    requires t.store.c.inflightHits == s.store.c.inflightHits - Joined(s.calls[i]) + Joined(t.calls[i])
    requires t.store.c.remoteRequests == s.store.c.remoteRequests - Owned(s.calls[i]) + Owned(t.calls[i])
    ensures TotalsOk(t)
  {
    SumByUpdate(Served, s.calls, i, t.calls[i]);
    SumByUpdate(Admitted, s.calls, i, t.calls[i]);
    SumByUpdate(HitCache, s.calls, i, t.calls[i]);
    SumByUpdate(Joined, s.calls, i, t.calls[i]);
    SumByUpdate(Owned, s.calls, i, t.calls[i]);
  }

  lemma EnterTotals(blob: seq<byte>, s: System, i: nat)
    requires TotalsOk(s) && Enabled(blob, s, Enter(i)) && s.calls[i].via.Unadmitted?
    requires s.calls[i].key in s.store.cache ==> |s.store.cache[s.calls[i].key]| == s.calls[i].key.len
    ensures TotalsOk(Step(blob, s, Enter(i)))
  {
    AdmitBalanced(s.store, s.calls[i].key);
    MoveTotals(s, Step(blob, s, Enter(i)), i);
  }

  lemma OwnerTotals(blob: seq<byte>, s: System, i: nat)
    requires TotalsOk(s) && Enabled(blob, s, Publish(i))
    requires s.calls[i].key in s.store.inflight && s.calls[i].key !in s.store.cache
    requires s.calls[i].pc.outcome.Data? ==> |s.calls[i].pc.outcome.bytes| == s.calls[i].key.len >= 1
    ensures TotalsOk(Step(blob, s, Publish(i)))
  {
    var c := s.calls[i];
    PublishTotals(s.store, c.key, c.pc.sid, c.pc.outcome);
    MoveTotals(s, Step(blob, s, Publish(i)), i);
  }

  lemma WaiterTotals(blob: seq<byte>, s: System, i: nat)
    requires TotalsOk(s) && Enabled(blob, s, Count(i)) && s.store.cache != map[]
    requires |s.store.states[s.calls[i].pc.sid].data.value| == s.calls[i].key.len
    ensures TotalsOk(Step(blob, s, Count(i)))
  {
    CountServedBalanced(s.store, s.calls[i].key.len);
    MoveTotals(s, Step(blob, s, Count(i)), i);
  }

  lemma QuietTotals(blob: seq<byte>, s: System, ev: Event)
    requires TotalsOk(s) && Enabled(blob, s, ev) && !ev.Enter? && !ev.Publish? && !ev.Count?
    ensures TotalsOk(Step(blob, s, ev))
  {
    if ev.Arrive? {
      var c := Call(ev.key, Ready, Unadmitted);
      SumByAppend(Served, s.calls, c);
      SumByAppend(Admitted, s.calls, c);
      SumByAppend(HitCache, s.calls, c);
      SumByAppend(Joined, s.calls, c);
      SumByAppend(Owned, s.calls, c);
    } else {
      MoveTotals(s, Step(blob, s, ev), ev.i);
    }
  }

  lemma StepTotals(blob: seq<byte>, s: System, ev: Event)
    requires Inv(blob, s) && TotalsOk(s) && Enabled(blob, s, ev)
    ensures TotalsOk(Step(blob, s, ev))
  {
    if !ev.Arrive? { assert CallOk(blob, s.store, s.h, ev.i, s.calls[ev.i]); }
    match ev {
      case Enter(i) => EnterTotals(blob, s, i);
      case Publish(i) => OwnerTotals(blob, s, i);
      case Count(i) => WaiterTotals(blob, s, i);
      case _ => QuietTotals(blob, s, ev);
    }
  }

  lemma {:induction false} RunTotals(blob: seq<byte>, s: System, evs: seq<Event>)
    requires Inv(blob, s) && TotalsOk(s) && Legal(blob, s, evs)
    ensures TotalsOk(Exec(blob, s, evs))
    decreases |evs|
  {
    if evs != [] {
      StepKeeps(blob, s, evs[0]);
      StepTotals(blob, s, evs[0]);
      RunTotals(blob, Step(blob, s, evs[0]), evs[1..]);
    }
  }

  // ---------------------------------------------------------------- what every run guarantees

  /** Accounting: the laws behind `/__stats`, and each counter exact: requests by how they were
      answered, served bytes by the calls that have been given their data. */
  lemma Accounting(blob: seq<byte>, evs: seq<Event>)
    requires Legal(blob, INIT, evs)
    ensures var s := Exec(blob, INIT, evs);
      && Balanced(s.store)
      && s.store.c.bytesServed == SumBy(Served, s.calls)
      && s.store.c.clientRequests == SumBy(Admitted, s.calls)
      && s.store.c.cacheHits == SumBy(HitCache, s.calls)
      && s.store.c.inflightHits == SumBy(Joined, s.calls)
      && s.store.c.remoteRequests == SumBy(Owned, s.calls)
  {
    RunTotals(blob, INIT, evs);
  }

  predicate InFlight(c: Call) {
    c.pc.Fetching? || c.pc.Answered?
  }

  /** Single flight: no key is both cached and in flight, no two calls own fetches of one key,
      no key is fetched twice, and every returned byte string is the blob's slice. */
  lemma SingleFlightSafe(blob: seq<byte>, evs: seq<Event>, i: nat, j: nat, k: Key)
    requires Legal(blob, INIT, evs) && i < |Exec(blob, INIT, evs).calls| && j < |Exec(blob, INIT, evs).calls|
    ensures var s := Exec(blob, INIT, evs);
      && s.store.cache.Keys !! s.store.inflight.Keys
      && (s.calls[i].key == s.calls[j].key && InFlight(s.calls[i]) && InFlight(s.calls[j]) ==> i == j)
      && s.h.fetched[k] <= 1
      && (s.calls[i].pc.Returned? ==>
            InBlob(blob, s.calls[i].key) && s.calls[i].pc.data == Slice(blob, s.calls[i].key))
  {
    RunKeeps(blob, INIT, evs);
    var s := Exec(blob, INIT, evs);
    assert CallOk(blob, s.store, s.h, i, s.calls[i]) && CallOk(blob, s.store, s.h, j, s.calls[j]);
  }

  /** `requested` holds the keys of exactly the calls that have entered. */
  lemma {:induction false} RequestedKeys(blob: seq<byte>, s: System, evs: seq<Event>)
    requires Legal(blob, s, evs)
    requires s.h.requested == AskedFor(s)
    ensures Exec(blob, s, evs).h.requested == AskedFor(Exec(blob, s, evs))
    decreases |evs|
  {
    if evs != [] {
      var t := Step(blob, s, evs[0]);
      forall k ensures k in AskedFor(t) <==> k in AskedFor(s) || (evs[0].Enter? && k == s.calls[evs[0].i].key) {
        forall i | 0 <= i < |s.calls| ensures t.calls[i].key == s.calls[i].key {}
        if k in AskedFor(s) {
          var i :| 0 <= i < |s.calls| && !s.calls[i].pc.Ready? && s.calls[i].key == k;
          assert t.calls[i].key == k && !t.calls[i].pc.Ready?;
        }
        if evs[0].Enter? { assert t.calls[evs[0].i].key == s.calls[evs[0].i].key; }
      }
      RequestedKeys(blob, t, evs[1..]);
    }
  }

  ghost function AskedFor(s: System): set<Key> {
    set i | 0 <= i < |s.calls| && !s.calls[i].pc.Ready? :: s.calls[i].key
  }

  /** Optimal dedup: while no fetch has failed, the upstream is asked once per distinct key. */
  lemma OptimalDedup(blob: seq<byte>, evs: seq<Event>)
    requires Legal(blob, INIT, evs)
    ensures var s := Exec(blob, INIT, evs);
      s.store.c.remoteErrors == 0 ==> s.store.c.remoteRequests == |AskedFor(s)|
  {
    RunKeeps(blob, INIT, evs);
    RunTotals(blob, INIT, evs);
    RequestedKeys(blob, INIT, evs);
    var s := Exec(blob, INIT, evs);
    DedupCount(s.store, s.h);
  }

  lemma DedupCount(s: Store, h: History)
    requires HistoryOk(s, h) && s.cache.Keys !! s.inflight.Keys
    requires s.c.remoteRequests == |s.cache| + |s.inflight| + s.c.remoteErrors
    ensures s.c.remoteErrors == 0 ==> s.c.remoteRequests == |h.requested|
  {
    DisjointSize(s.cache, s.inflight);
  }

  /** No stranded waiter: an event is set with exactly one of data and error, or exactly one live
      call still has to set it; so no call ever raises "completed without data". */
  lemma NoStrandedWaiter(blob: seq<byte>, evs: seq<Event>, i: nat)
    requires Legal(blob, INIT, evs) && i < |Exec(blob, INIT, evs).calls|
    ensures var s := Exec(blob, INIT, evs);
      && (s.calls[i].pc.Waiting? ==>
            var sid := s.calls[i].pc.sid;
            && sid < |s.store.states|
            && var st := s.store.states[sid];
               if st.event then st.data.Some? != st.error.Some?
               else exists o :: 0 <= o < |s.calls| && Owns(s.calls[o], sid) &&
                      forall o' :: 0 <= o' < |s.calls| && Owns(s.calls[o'], sid) ==> o' == o)
      && s.calls[i].pc != Raised(CompletedWithoutData)
  {
    RunKeeps(blob, INIT, evs);
    var s := Exec(blob, INIT, evs);
    assert CallOk(blob, s.store, s.h, i, s.calls[i]);
    if s.calls[i].pc.Waiting? {
      var sid := s.calls[i].pc.sid;
      var o := s.h.creator[sid];
      assert StateOk(s.store.states[sid], s.calls, o, sid);
      forall o' | 0 <= o' < |s.calls| && Owns(s.calls[o'], sid) ensures o' == o {
        assert CallOk(blob, s.store, s.h, o', s.calls[o']);
      }
    }
  }

  // ---------------------------------------------------------------- where every answer comes from

  /** A reply of the upstream, apart from its bytes. */
  datatype Reply = Good | Bad(exc: nat)

  function ReplyOf(o: Outcome): Reply {
    match o
    case Data(_) => Good
    case Failed(exc) => Bad(exc)
  }

  predicate Shows(st: FetchState, r: Reply) {
    match r
    case Good => st.data.Some?
    case Bad(exc) => st.error == Some(exc)
  }

  function AnswerOf(o: nat, r: Reply): Event {
    match r
    case Good => AnswerData(o)
    case Bad(exc) => AnswerError(o, exc)
  }

  /** Call o has a reply in hand that it may still have to announce. */
  predicate InHand(s: System, o: nat, r: Reply) {
    o < |s.calls| && (s.calls[o].pc.Answered? || s.calls[o].pc.Notifying?) && ReplyOf(s.calls[o].pc.outcome) == r
  }

  /** A FetchState that call o created shows a reply. */
  ghost predicate Shown(s: System, o: nat, r: Reply) {
    exists sid :: 0 <= sid < |s.store.states| && Created(s.h, sid, o) && Shows(s.store.states[sid], r)
  }

  ghost predicate Holds(s: System, o: nat, r: Reply) { InHand(s, o, r) || Shown(s, o, r) }

  /** Steps that neither answer nor publish nor announce leave all replies alone. */
  lemma IdleHolds(blob: seq<byte>, s: System, ev: Event, o: nat, r: Reply)
    requires Inv(blob, s) && Enabled(blob, s, ev) && (ev.Arrive? || ev.Enter? || ev.Wake? || ev.Count?)
    ensures Holds(Step(blob, s, ev), o, r) <==> Holds(s, o, r)
  {
    var t := Step(blob, s, ev);
    assert InHand(t, o, r) <==> InHand(s, o, r);
    if Shown(s, o, r) {
      var sid :| 0 <= sid < |s.store.states| && Created(s.h, sid, o) && Shows(s.store.states[sid], r);
      assert Created(t.h, sid, o) && Shows(t.store.states[sid], r);
    }
    if Shown(t, o, r) {
      var sid :| 0 <= sid < |t.store.states| && Created(t.h, sid, o) && Shows(t.store.states[sid], r);
      assert Created(s.h, sid, o) && Shows(s.store.states[sid], r);
    }
  }

  lemma AnswerHolds(blob: seq<byte>, s: System, ev: Event, o: nat, r: Reply)
    requires Enabled(blob, s, ev) && (ev.AnswerData? || ev.AnswerError?)
    ensures Holds(Step(blob, s, ev), o, r) <==> Holds(s, o, r) || ev == AnswerOf(o, r)
  {
    var t := Step(blob, s, ev);
    assert Shown(t, o, r) <==> Shown(s, o, r);
  }

  lemma PublishHolds(blob: seq<byte>, s: System, i: nat, o: nat, r: Reply)
    requires StoreOk(blob, s.store) && Enabled(blob, s, Publish(i)) && CallOk(blob, s.store, s.h, i, s.calls[i])
    ensures Holds(Step(blob, s, Publish(i)), o, r) <==> Holds(s, o, r)
  {
    var t, at := Step(blob, s, Publish(i)), s.calls[i].pc.sid;
    assert InHand(t, o, r) <==> InHand(s, o, r);
    if Shown(s, o, r) {
      var sid :| 0 <= sid < |s.store.states| && Created(s.h, sid, o) && Shows(s.store.states[sid], r);
      assert sid != at;
      assert Created(t.h, sid, o) && Shows(t.store.states[sid], r);
    }
    if Shown(t, o, r) {
      var sid :| 0 <= sid < |t.store.states| && Created(t.h, sid, o) && Shows(t.store.states[sid], r);
      if sid != at { assert Created(s.h, sid, o) && Shows(s.store.states[sid], r); }
    }
  }

  lemma NotifyHolds(blob: seq<byte>, s: System, i: nat, o: nat, r: Reply)
    requires Enabled(blob, s, Notify(i)) && CallOk(blob, s.store, s.h, i, s.calls[i])
    ensures Holds(Step(blob, s, Notify(i)), o, r) <==> Holds(s, o, r)
  {
    var t, at := Step(blob, s, Notify(i)), s.calls[i].pc.sid;
    if InHand(s, o, r) && o == i {
      assert Created(t.h, at, o) && Shows(t.store.states[at], r);
    }
    if Shown(s, o, r) {
      var sid :| 0 <= sid < |s.store.states| && Created(s.h, sid, o) && Shows(s.store.states[sid], r);
      assert Created(t.h, sid, o) && Shows(t.store.states[sid], r);
    }
    if Shown(t, o, r) {
      var sid :| 0 <= sid < |t.store.states| && Created(t.h, sid, o) && Shows(t.store.states[sid], r);
      assert Created(s.h, sid, o) && Shows(s.store.states[sid], r);
    }
  }

  lemma StepHolds(blob: seq<byte>, s: System, ev: Event, o: nat, r: Reply)
    requires Inv(blob, s) && Enabled(blob, s, ev)
    ensures Holds(Step(blob, s, ev), o, r) <==> Holds(s, o, r) || ev == AnswerOf(o, r)
  {
    if ev.AnswerData? || ev.AnswerError? {
      AnswerHolds(blob, s, ev, o, r);
    } else if ev.Publish? {
      assert CallOk(blob, s.store, s.h, ev.i, s.calls[ev.i]);
      PublishHolds(blob, s, ev.i, o, r);
    } else if ev.Notify? {
      assert CallOk(blob, s.store, s.h, ev.i, s.calls[ev.i]);
      NotifyHolds(blob, s, ev.i, o, r);
    } else {
      IdleHolds(blob, s, ev, o, r);
    }
  }

  /** A call holds a reply exactly when the upstream gave it that reply. */
  lemma {:induction false} RunHolds(blob: seq<byte>, s: System, evs: seq<Event>, o: nat, r: Reply)
    requires Inv(blob, s) && Legal(blob, s, evs)
    ensures Holds(Exec(blob, s, evs), o, r) <==> Holds(s, o, r) || AnswerOf(o, r) in evs
    decreases |evs|
  {
    if evs != [] {
      StepKeeps(blob, s, evs[0]);
      StepHolds(blob, s, evs[0], o, r);
      RunHolds(blob, Step(blob, s, evs[0]), evs[1..], o, r);
      assert evs == [evs[0]] + evs[1..];
    }
  }

  /** The creator of a FetchState owns it for good, and everybody on it asked for the same key. */
  ghost predicate CreatorsOk(s: System) {
    && (forall sid :: 0 <= sid < |s.h.creator| ==>
          s.h.creator[sid] < |s.calls| && s.calls[s.h.creator[sid]].via == ByOwning(sid))
    && (forall i :: 0 <= i < |s.calls| && OnState(s.store, s.calls[i].via) ==>
          SameKey(s, s.calls[i].via.sid, s.calls[i].key))
  }

  ghost predicate SameKey(s: System, sid: nat, k: Key) {
    sid < |s.h.creator| && s.h.creator[sid] < |s.calls| && s.calls[s.h.creator[sid]].key == k
  }

  /** Whoever finds a key in flight joins a FetchState made for that key. */
  lemma JoinedKey(blob: seq<byte>, s: System, k: Key)
    requires Inv(blob, s) && k in s.store.inflight
    ensures SameKey(s, s.store.inflight[k], k)
  {
    var sid := s.store.inflight[k];
    var o := s.h.creator[sid];
    assert StateOk(s.store.states[sid], s.calls, o, sid);
    assert CallOk(blob, s.store, s.h, o, s.calls[o]);
  }

  /** A call that has gone by a FetchState went by one there is. */
  ghost predicate ViaKnown(s: Store, via: Via) {
    via.ByOwning? || via.ByJoining? ==> via.sid < |s.states|
  }

  lemma ViaOk(blob: seq<byte>, s: System, j: nat)
    requires Inv(blob, s) && j < |s.calls|
    ensures ViaKnown(s.store, s.calls[j].via)
  {
    assert CallOk(blob, s.store, s.h, j, s.calls[j]);
  }

  lemma EnterCreators(blob: seq<byte>, s: System, i: nat)
    requires CreatorsOk(s) && Enabled(blob, s, Enter(i)) && |s.h.creator| == |s.store.states|
    requires s.calls[i].via.Unadmitted?
    requires s.calls[i].key in s.store.inflight ==> SameKey(s, s.store.inflight[s.calls[i].key], s.calls[i].key)
    requires forall j :: 0 <= j < |s.calls| ==> ViaKnown(s.store, s.calls[j].via)
    ensures CreatorsOk(Step(blob, s, Enter(i)))
  {
    var t := Step(blob, s, Enter(i));
    forall j | 0 <= j < |t.calls| && OnState(t.store, t.calls[j].via)
      ensures SameKey(t, t.calls[j].via.sid, t.calls[j].key)
    {
      if j != i {
        assert ViaKnown(s.store, s.calls[j].via);
        assert SameKey(s, s.calls[j].via.sid, s.calls[j].key);
      }
    }
  }

  lemma StepCreators(blob: seq<byte>, s: System, ev: Event)
    requires Inv(blob, s) && CreatorsOk(s) && Enabled(blob, s, ev)
    ensures CreatorsOk(Step(blob, s, ev))
  {
    if ev.Enter? {
      forall j | 0 <= j < |s.calls| ensures ViaKnown(s.store, s.calls[j].via) { ViaOk(blob, s, j); }
      assert CallOk(blob, s.store, s.h, ev.i, s.calls[ev.i]);
      if s.calls[ev.i].key in s.store.inflight { JoinedKey(blob, s, s.calls[ev.i].key); }
      EnterCreators(blob, s, ev.i);
    } else {
      QuietCreators(blob, s, ev);
    }
  }

  lemma QuietCreators(blob: seq<byte>, s: System, ev: Event)
    requires CreatorsOk(s) && Enabled(blob, s, ev) && !ev.Enter?
    ensures CreatorsOk(Step(blob, s, ev))
  {
    var t := Step(blob, s, ev);
    assert t.h.creator == s.h.creator && |t.store.states| == |s.store.states|;
    forall j | 0 <= j < |s.calls| ensures t.calls[j].via == s.calls[j].via && t.calls[j].key == s.calls[j].key {}
    forall j | 0 <= j < |t.calls| && OnState(t.store, t.calls[j].via)
      ensures SameKey(t, t.calls[j].via.sid, t.calls[j].key)
    {
      assert SameKey(s, s.calls[j].via.sid, s.calls[j].key);
    }
  }

  lemma {:induction false} RunCreators(blob: seq<byte>, s: System, evs: seq<Event>)
    requires Inv(blob, s) && CreatorsOk(s) && Legal(blob, s, evs)
    ensures CreatorsOk(Exec(blob, s, evs))
    decreases |evs|
  {
    if evs != [] {
      StepKeeps(blob, s, evs[0]);
      StepCreators(blob, s, evs[0]);
      RunCreators(blob, Step(blob, s, evs[0]), evs[1..]);
    }
  }

  /** A FetchState that shows something shows all that its creator holds. */
  lemma OneReply(blob: seq<byte>, s: System, sid: nat, r: Reply, r': Reply)
    requires Inv(blob, s) && CreatorsOk(s) && sid < |s.store.states|
    requires Shows(s.store.states[sid], r) && Holds(s, s.h.creator[sid], r')
    ensures r == r'
  {
    var o := s.h.creator[sid];
    assert CallOk(blob, s.store, s.h, o, s.calls[o]);
    assert StateOk(s.store.states[sid], s.calls, o, sid);
    if Shown(s, o, r') {
      var sid' :| 0 <= sid' < |s.store.states| && Created(s.h, sid', o) && Shows(s.store.states[sid'], r');
      assert s.calls[o].via == ByOwning(sid') == ByOwning(sid);
    }
  }

  /** What a finished call got: the cached slice, or what the upstream answered to the call o that
      created the FetchState it went by, for the same key. */
  ghost predicate GotAnswer(blob: seq<byte>, s: System, evs: seq<Event>, c: Call) {
    if c.via.ByCache? then c.pc.Returned? else
      && (c.via.ByOwning? || c.via.ByJoining?) && SameKey(s, c.via.sid, c.key)
      && var o := s.h.creator[c.via.sid];
         && (c.pc.Returned? <==> AnswerData(o) in evs)
         && (forall e :: c.pc == Raised(Upstream(e)) <==> AnswerError(o, e) in evs)
  }

  lemma AnswerTraced(blob: seq<byte>, evs: seq<Event>, i: nat, r: Reply)
    requires Legal(blob, INIT, evs) && i < |Exec(blob, INIT, evs).calls|
    requires var s := Exec(blob, INIT, evs);
      && Finished(s.calls[i]) && !s.calls[i].via.ByCache? && CreatorsOk(s) && Inv(blob, s)
    ensures var s := Exec(blob, INIT, evs);
      && OnState(s.store, s.calls[i].via)
      && (Shows(s.store.states[s.calls[i].via.sid], r) <==> AnswerOf(s.h.creator[s.calls[i].via.sid], r) in evs)
  {
    var s := Exec(blob, INIT, evs);
    var c := s.calls[i];
    assert CallOk(blob, s.store, s.h, i, c);
    var sid := c.via.sid;
    var o := s.h.creator[sid];
    RunHolds(blob, INIT, evs, o, r);
    if Shows(s.store.states[sid], r) { assert Created(s.h, sid, o); }
    if Holds(s, o, r) {
      OneReply(blob, s, sid, if c.pc.Returned? then Good else Bad(c.pc.reason.exc), r);
    }
  }

  /** Every finished call got its answer from where it should: nothing is raised that the upstream
      did not raise, and nothing is raised where it gave data. */
  lemma EveryAnswerTraced(blob: seq<byte>, evs: seq<Event>, i: nat)
    requires Legal(blob, INIT, evs) && i < |Exec(blob, INIT, evs).calls| && Finished(Exec(blob, INIT, evs).calls[i])
    ensures var s := Exec(blob, INIT, evs); GotAnswer(blob, s, evs, s.calls[i])
  {
    RunKeeps(blob, INIT, evs);
    RunCreators(blob, INIT, evs);
    var s := Exec(blob, INIT, evs);
    var c := s.calls[i];
    assert CallOk(blob, s.store, s.h, i, c);
    if !c.via.ByCache? {
      AnswerTraced(blob, evs, i, Good);
      FinishedShows(blob, s, i, 0);
      assert SameKey(s, c.via.sid, c.key);
      forall e ensures c.pc == Raised(Upstream(e)) <==> AnswerError(s.h.creator[c.via.sid], e) in evs {
        ErrorTraced(blob, evs, i, e);
      }
    }
  }

  lemma ErrorTraced(blob: seq<byte>, evs: seq<Event>, i: nat, e: nat)
    requires Legal(blob, INIT, evs) && i < |Exec(blob, INIT, evs).calls|
    requires var s := Exec(blob, INIT, evs);
      && Finished(s.calls[i]) && !s.calls[i].via.ByCache? && CreatorsOk(s) && Inv(blob, s)
    ensures var s := Exec(blob, INIT, evs);
      && OnState(s.store, s.calls[i].via)
      && (s.calls[i].pc == Raised(Upstream(e)) <==> AnswerError(s.h.creator[s.calls[i].via.sid], e) in evs)
  {
    AnswerTraced(blob, evs, i, Bad(e));
    FinishedShows(blob, Exec(blob, INIT, evs), i, e);
  }

  lemma FinishedShows(blob: seq<byte>, s: System, i: nat, e: nat)
    requires Inv(blob, s) && CreatorsOk(s) && i < |s.calls| && Finished(s.calls[i]) && !s.calls[i].via.ByCache?
    ensures var c := s.calls[i];
      && OnState(s.store, c.via)
      && (c.pc.Returned? <==> Shows(s.store.states[c.via.sid], Good))
      && (c.pc == Raised(Upstream(e)) <==> Shows(s.store.states[c.via.sid], Bad(e)))
  {
    var c := s.calls[i];
    assert CallOk(blob, s.store, s.h, i, c);
    var sid := c.via.sid;
    assert SameKey(s, sid, c.key);
    assert Created(s.h, sid, s.h.creator[sid]);
    var st := s.store.states[sid];
    var shown := if c.pc.Returned? then Good else Bad(c.pc.reason.exc);
    if Shows(st, Good) { OneReply(blob, s, sid, shown, Good); }
    if Shows(st, Bad(e)) { OneReply(blob, s, sid, shown, Bad(e)); }
  }

  lemma RaisedIsAnswered(blob: seq<byte>, s: System, evs: seq<Event>, c: Call)
    requires GotAnswer(blob, s, evs, c)
    ensures c.pc.Raised? && c.pc.reason.Upstream? ==> exists n :: 0 <= n < |evs| && evs[n].AnswerError?
  {
    if c.pc.Raised? && c.pc.reason.Upstream? {
      assert AnswerError(s.h.creator[c.via.sid], c.pc.reason.exc) in evs;
    }
  }

  /** While the upstream answers every fetch, nobody is ever given an error: every finished call has
      the blob's slice for its key. */
  lemma NoErrorNoRaise(blob: seq<byte>, evs: seq<Event>, i: nat)
    requires Legal(blob, INIT, evs) && i < |Exec(blob, INIT, evs).calls|
    requires forall n :: 0 <= n < |evs| ==> !evs[n].AnswerError?
    ensures var c := Exec(blob, INIT, evs).calls[i];
      Finished(c) ==> InBlob(blob, c.key) && c.pc == Returned(Slice(blob, c.key))
  {
    var s := Exec(blob, INIT, evs);
    var c := s.calls[i];
    SingleFlightSafe(blob, evs, i, i, c.key);
    NoStrandedWaiter(blob, evs, i);
    if Finished(c) {
      EveryAnswerTraced(blob, evs, i);
      RaisedIsAnswered(blob, s, evs, c);
    }
  }

  /** How many steps a call can still take at most. */
  function Rank(c: Call): nat {
    match c.pc
    case Ready => 5
    case Fetching(_) => 3
    case Answered(_, _) => 2
    case Waiting(_) => 2
    case Notifying(_, _) => 1
    case Counting(_) => 1
    case _ => 0
  }

  /** Every run without new arrivals is finite, whatever the interleaving. */
  lemma {:induction false} RunsAreFinite(blob: seq<byte>, s: System, evs: seq<Event>)
    requires Legal(blob, s, evs) && forall n :: 0 <= n < |evs| ==> !evs[n].Arrive?
    ensures |evs| + SumBy(Rank, Exec(blob, s, evs).calls) <= SumBy(Rank, s.calls)
    decreases |evs|
  {
    if evs != [] {
      var t, i := Step(blob, s, evs[0]), evs[0].i;
      SumByUpdate(Rank, s.calls, i, t.calls[i]);
      assert t.calls == s.calls[i := t.calls[i]];
      RunsAreFinite(blob, t, evs[1..]);
    }
  }

  /** No deadlock: after any run, some call can move or every call has returned or raised. */
  lemma NoDeadlock(blob: seq<byte>, evs: seq<Event>, i: nat) returns (next: Event)
    requires Legal(blob, INIT, evs) && i < |Exec(blob, INIT, evs).calls|
    requires !Finished(Exec(blob, INIT, evs).calls[i])
    ensures !next.Arrive? && Enabled(blob, Exec(blob, INIT, evs), next)
  {
    RunKeeps(blob, INIT, evs);
    var s := Exec(blob, INIT, evs);
    assert CallOk(blob, s.store, s.h, i, s.calls[i]);
    var o := i;
    if s.calls[i].pc.Waiting? {
      var sid := s.calls[i].pc.sid;
      assert StateOk(s.store.states[sid], s.calls, s.h.creator[sid], sid);
      if s.store.states[sid].event { return Wake(i); }
      o := s.h.creator[sid];
      assert CallOk(blob, s.store, s.h, o, s.calls[o]);
    }
    match s.calls[o].pc {
      case Ready => next := Enter(o);
      case Fetching(_) => next := AnswerError(o, 0);
      case Answered(_, _) => next := Publish(o);
      case Notifying(_, _) => next := Notify(o);
      case Counting(_) => next := Count(o);
    }
  }
}
