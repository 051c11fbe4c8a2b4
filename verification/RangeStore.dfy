/** The shared state of the range proxy and the critical sections that `get_range` runs on it. */
module RangeStore {
  import opened Common

  /** A requested range; the proxy keys its dictionaries by start and length. */
  datatype Key = Key(start: nat, len: nat)

  /** The rendezvous between one owner and its waiters. */
  datatype FetchState = FetchState(event: bool, data: Option<seq<byte>>, error: Option<nat>)

  datatype Counters = Counters(
    clientRequests: nat, remoteRequests: nat, cacheHits: nat, inflightHits: nat,
    bytesServed: nat, bytesFromRemote: nat, cacheBytes: nat, remoteErrors: nat)

  /** `states` is the heap of FetchState objects; `inflight` refers into it by position. */
  datatype Store = Store(
    cache: map<Key, seq<byte>>, inflight: map<Key, nat>, states: seq<FetchState>, c: Counters)

  const BLANK := FetchState(false, None, None)
  const ZERO := Counters(0, 0, 0, 0, 0, 0, 0, 0)
  const EMPTY := Store(map[], map[], [], ZERO)

  /** What the first critical section tells the caller to do next. */
  datatype Admission = Hit(data: seq<byte>) | Own(sid: nat) | Join(sid: nat)

  function Admit(s: Store, k: Key): (Store, Admission) {
    var c := s.c.(clientRequests := s.c.clientRequests + 1);
    if k in s.cache then
      (s.(c := c.(cacheHits := c.cacheHits + 1, bytesServed := c.bytesServed + |s.cache[k]|)),
       Hit(s.cache[k]))
    else if k in s.inflight then
      (s.(c := c.(inflightHits := c.inflightHits + 1)), Join(s.inflight[k]))
    else
      (s.(inflight := s.inflight[k := |s.states|], states := s.states + [BLANK],
          c := c.(remoteRequests := c.remoteRequests + 1)),
       Own(|s.states|))
  }

  function PublishData(s: Store, k: Key, sid: nat, data: seq<byte>): Store
    requires sid < |s.states|
  {
    s.(cache := s.cache[k := data],
       inflight := s.inflight - {k},
       states := s.states[sid := s.states[sid].(data := Some(data))],
       c := s.c.(cacheBytes := s.c.cacheBytes + |data|,
                 bytesFromRemote := s.c.bytesFromRemote + |data|,
                 bytesServed := s.c.bytesServed + |data|))
  }

  function PublishError(s: Store, k: Key, sid: nat, exc: nat): Store
    requires sid < |s.states|
  {
    s.(inflight := s.inflight - {k},
       states := s.states[sid := s.states[sid].(error := Some(exc))],
       c := s.c.(remoteErrors := s.c.remoteErrors + 1))
  }

  function SetEvent(s: Store, sid: nat): Store
    requires sid < |s.states|
  {
    s.(states := s.states[sid := s.states[sid].(event := true)])
  }

  function CountServed(s: Store, n: nat): Store {
    s.(c := s.c.(bytesServed := s.c.bytesServed + n))
  }

  function Size(data: seq<byte>): nat { |data| }

  /** The accounting laws that hold whenever the lock is free. */
  ghost predicate Balanced(s: Store) {
    && s.c.clientRequests == s.c.cacheHits + s.c.inflightHits + s.c.remoteRequests
    && s.c.remoteRequests == |s.cache| + |s.inflight| + s.c.remoteErrors
    && s.c.cacheBytes == s.c.bytesFromRemote == SumMap(Size, s.cache)
    && s.c.bytesFromRemote <= s.c.bytesServed
    && (s.c.remoteRequests == 0 ==> s.c.clientRequests == 0)
    && (s.c.bytesFromRemote == 0 ==> s.c.bytesServed == 0)
    && forall k :: k in s.cache ==> |s.cache[k]| >= 1
  }

  lemma AdmitBalanced(s: Store, k: Key)
    requires Balanced(s)
    ensures Balanced(Admit(s, k).0)
  {
    if k in s.cache {
      SumMapRemove(Size, s.cache, k);
    } else if k !in s.inflight {
      MapGrows(s.inflight, k, |s.states|);
    } else {
      MapShrinks(s.inflight, k);
    }
  }

  lemma PublishBalanced(s: Store, k: Key, sid: nat, data: seq<byte>, exc: nat)
    requires Balanced(s) && sid < |s.states| && k in s.inflight && k !in s.cache
    ensures |data| >= 1 ==> Balanced(PublishData(s, k, sid, data))
    ensures Balanced(PublishError(s, k, sid, exc))
  {
    MapShrinks(s.inflight, k);
    MapGrows(s.cache, k, data);
    SumMapUpdate(Size, s.cache, k, data);
  }

  /** A waiter is served bytes that some owner has already put in the cache. */
  lemma CountServedBalanced(s: Store, n: nat)
    requires Balanced(s) && (n > 0 ==> s.cache != map[])
    ensures Balanced(CountServed(s, n))
  {
    if n > 0 {
      var k :| k in s.cache;
      SumMapRemove(Size, s.cache, k);
    }
  }

  /** The object the handler threads share. Each method is one section run under `lock`
      (or, for Notify, the event that is set after the lock is dropped). */
  class RangeStore {
    var cache: map<Key, seq<byte>>
    var inflight: map<Key, nat>
    var states: seq<FetchState>
    var clientRequests: nat
    var remoteRequests: nat
    var cacheHits: nat
    var inflightHits: nat
    var bytesServed: nat
    var bytesFromRemote: nat
    var cacheBytes: nat
    var remoteErrors: nat

    function View(): Store
      reads this
    {
      Store(cache, inflight, states,
            Counters(clientRequests, remoteRequests, cacheHits, inflightHits, bytesServed,
                     bytesFromRemote, cacheBytes, remoteErrors))
    }

    constructor ()
      ensures View() == EMPTY && Balanced(View())
    {
      cache, inflight, states := map[], map[], [];
      clientRequests, remoteRequests, cacheHits, inflightHits := 0, 0, 0, 0;
      bytesServed, bytesFromRemote, cacheBytes, remoteErrors := 0, 0, 0, 0;
    }

    method EnterGetRange(k: Key) returns (a: Admission)
      modifies this
      ensures (View(), a) == Admit(old(View()), k)
    {
      clientRequests := clientRequests + 1;
      if k in cache {
        cacheHits := cacheHits + 1;
        bytesServed := bytesServed + |cache[k]|;
        return Hit(cache[k]);
      }
      if k !in inflight {
        var sid := |states|;
        states := states + [BLANK];
        inflight := inflight[k := sid];
        remoteRequests := remoteRequests + 1;
        return Own(sid);
      }
      inflightHits := inflightHits + 1;
      return Join(inflight[k]);
    }

    method Publish(k: Key, sid: nat, data: seq<byte>)
      requires sid < |states|
      modifies this
      ensures View() == PublishData(old(View()), k, sid, data)
    {
      cache := cache[k := data];
      cacheBytes := cacheBytes + |data|;
      bytesFromRemote := bytesFromRemote + |data|;
      bytesServed := bytesServed + |data|;
      states := states[sid := states[sid].(data := Some(data))];
      inflight := inflight - {k};
    }

    method PublishFailure(k: Key, sid: nat, exc: nat)
      requires sid < |states|
      modifies this
      ensures View() == PublishError(old(View()), k, sid, exc)
    {
      remoteErrors := remoteErrors + 1;
      states := states[sid := states[sid].(error := Some(exc))];
      inflight := inflight - {k};
    }

    method Notify(sid: nat)
      requires sid < |states|
      modifies this
      ensures View() == SetEvent(old(View()), sid)
    {
      states := states[sid := states[sid].(event := true)];
    }

    method CountWaiter(n: nat)
      modifies this
      ensures View() == CountServed(old(View()), n)
    {
      bytesServed := bytesServed + n;
    }

    /** The two ratios that `/__stats` reports; both stay below one and never go negative. */
    method Stats() returns (bandwidthSaving: real, dedupRatio: real)
      requires Balanced(View())
      ensures 0.0 <= bandwidthSaving < 1.0 && 0.0 <= dedupRatio < 1.0
      ensures bandwidthSaving == Saving(bytesFromRemote, bytesServed)
      ensures dedupRatio == Saving(remoteRequests, clientRequests)
    {
      bandwidthSaving := Saving(bytesFromRemote, bytesServed);
      dedupRatio := Saving(remoteRequests, clientRequests);
    }
  }

  /** One minus a ratio, or zero when nothing was counted. */
  function Saving(part: nat, whole: nat): (r: real)
    requires part <= whole && (part == 0 ==> whole == 0)
    ensures 0.0 <= r < 1.0 && r * whole as real == (whole - part) as real
  {
    if whole == 0 then 0.0 else
      var q := part as real / whole as real;
      assert q * whole as real == part as real;
      assert 0.0 < q <= 1.0;
      1.0 - q
  }
}
