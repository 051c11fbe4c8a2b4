/** The userfault event loop: drain the queue, serve faults, defer those a pending `remove` blocks. */
module FaultDispatch {
  import opened Common
  import opened Alignment
  import opened PageServer

  datatype Event = Pagefault(addr: nat) | Remove(start: nat, end: nat)

  /** What happens outside the handler between two of its calls into the kernel: events arrive,
      and the next copy is answered EAGAIN if the kernel may do so. */
  datatype Tick = Tick(arrivals: seq<Event>, again: bool)

  /** The kernel: populated pages, queued events, and everything that is still to happen. */
  datatype Kernel = Kernel(pages: map<nat, seq<byte>>, queue: seq<Event>, future: seq<Tick>)

  predicate RemovePending(q: seq<Event>) {
    exists i :: 0 <= i < |q| && q[i].Remove?
  }

  predicate Covers(evs: seq<Event>, a: nat) {
    exists i :: 0 <= i < |evs| && evs[i].Remove? && evs[i].start <= a < evs[i].end
  }

  /** Removing a range drops the pages in it. */
  function DropRange(pages: map<nat, seq<byte>>, evs: seq<Event>): map<nat, seq<byte>> {
    map a | a in pages && !Covers(evs, a) :: pages[a]
  }

  function Advance(k: Kernel): Kernel {
    if k.future == [] then k else
      Kernel(DropRange(k.pages, k.future[0].arrivals), k.queue + k.future[0].arrivals, k.future[1..])
  }

  predicate MayRefuse(k: Kernel) {
    k.future != [] && k.future[0].again
  }

  function ReadEvent(k: Kernel): (Kernel, Option<Event>) {
    var k' := Advance(k);
    if k'.queue == [] then (k', None) else (k'.(queue := k'.queue[1..]), Some(k'.queue[0]))
  }

  /** EAGAIN only while a remove is pending; EEXIST leaves a populated page alone. */
  function Copy(k: Kernel, dst: nat, data: seq<byte>): (Kernel, bool) {
    var k' := Advance(k);
    if MayRefuse(k) && RemovePending(k'.queue) then (k', false)
    else if dst in k'.pages then (k', true)
    else (k'.(pages := k'.pages[dst := data]), true)
  }

  // ---------------------------------------------------------------- counting

  function IsRemove(e: Event): nat { if e.Remove? then 1 else 0 }
  function IsFault(e: Event): nat { if e.Pagefault? then 1 else 0 }

  /** Everything still to arrive, in order. */
  function Later(future: seq<Tick>): seq<Event> {
    if future == [] then [] else future[0].arrivals + Later(future[1..])
  }

  /** Everything still to be read, in order. */
  function Stream(k: Kernel): seq<Event> {
    k.queue + Later(k.future)
  }

  /** Number of removes still to arrive. */
  ghost function Coming(k: Kernel): nat {
    SumBy(IsRemove, Later(k.future))
  }

  lemma AdvanceStream(k: Kernel)
    ensures Stream(Advance(k)) == Stream(k)
    ensures Coming(Advance(k)) + SumBy(IsRemove, Advance(k).queue) == Coming(k) + SumBy(IsRemove, k.queue)
    ensures RemovePending(k.queue) ==> RemovePending(Advance(k).queue)
  {
    if k.future != [] {
      SumByConcat(IsRemove, k.queue, k.future[0].arrivals);
      SumByConcat(IsRemove, k.future[0].arrivals, Later(k.future[1..]));
      if RemovePending(k.queue) {
        var i :| 0 <= i < |k.queue| && k.queue[i].Remove?;
        assert Advance(k).queue[i].Remove?;
      }
    }
  }

  lemma ReadStream(k: Kernel)
    ensures var (k', e) := ReadEvent(k);
      && (e.None? ==> Stream(k') == Stream(k) && k'.queue == [])
      && (e.Some? ==> Stream(k) == [e.value] + Stream(k'))
      && Coming(k') <= Coming(k)
  {
    AdvanceStream(k);
    var q := Advance(k);
    if k.future != [] {
      SumByConcat(IsRemove, k.future[0].arrivals, Later(k.future[1..]));
    }
    if q.queue != [] {
      assert q.queue == [q.queue[0]] + q.queue[1..];
    }
  }

  // ---------------------------------------------------------------- the loop, as a function

  predicate EventOk(cfg: Config, e: Event)
    requires cfg.page > 0
  {
    match e
    case Pagefault(addr) => Locate(cfg.regions, RoundDown(addr, cfg.page)).Some?
    case Remove(start, end) => Multiple(start, cfg.page) && Multiple(end, cfg.page) && start < end
  }

  ghost predicate EventsOk(cfg: Config, evs: seq<Event>)
    requires cfg.page > 0
  {
    forall i :: 0 <= i < |evs| ==> EventOk(cfg, evs[i])
  }

  /** The kernel only reports faults inside the regions and well-formed removes. */
  ghost predicate KernelOk(cfg: Config, k: Kernel)
    requires cfg.page > 0
  {
    EventsOk(cfg, k.queue) && forall i :: 0 <= i < |k.future| ==> EventsOk(cfg, k.future[i].arrivals)
  }

  predicate PageOk(cfg: Config, blob: seq<byte>, a: nat, data: seq<byte>) {
    var off := Locate(cfg.regions, a);
    off.Some? && off.value + cfg.page <= |blob| && data == LocalPage(cfg, blob, off.value)
  }

  /** Every populated page holds the backing bytes of its file offset. */
  ghost predicate PagesOk(cfg: Config, blob: seq<byte>, pages: map<nat, seq<byte>>) {
    forall a :: a in pages ==> PageOk(cfg, blob, a, pages[a])
  }

  /** The bytes a fault asks for. */
  function FaultBytes(cfg: Config, blob: seq<byte>, addr: nat): seq<byte>
    requires Mapped(cfg, blob) && EventOk(cfg, Pagefault(addr))
  {
    var dst := RoundDown(addr, cfg.page);
    LocateInFile(cfg.regions, cfg.page, dst);
    LocalPage(cfg, blob, Locate(cfg.regions, dst).value)
  }

  datatype Drained = Drained(k: Kernel, evs: seq<Event>)

  function Drain(k: Kernel): (d: Drained)
    ensures d.k.queue == []
    decreases |Stream(k)|
  {
    ReadStream(k);
    var (k', e) := ReadEvent(k);
    if e.None? then Drained(k', []) else
      var rest := Drain(k');
      Drained(rest.k, [e.value] + rest.evs)
  }

  /** One pass over the events at hand: who is done, who is deferred, in order. */
  datatype Pass = Pass(k: Kernel, deferred: seq<Event>, handled: seq<Event>)

  function Handle(cfg: Config, blob: seq<byte>, p: Pass, e: Event): Pass
    requires Mapped(cfg, blob) && EventOk(cfg, e)
  {
    match e
    case Remove(_, _) => p.(handled := p.handled + [e])
    case Pagefault(addr) =>
      var (k', done) := Copy(p.k, RoundDown(addr, cfg.page), FaultBytes(cfg, blob, addr));
      if done then p.(k := k', handled := p.handled + [e]) else p.(k := k', deferred := p.deferred + [e])
  }

  function HandleAll(cfg: Config, blob: seq<byte>, p: Pass, evs: seq<Event>): Pass
    requires Mapped(cfg, blob) && EventsOk(cfg, evs)
    decreases |evs|
  {
    if evs == [] then p else
      HandleAll(cfg, blob, Handle(cfg, blob, p, evs[0]), evs[1..])
  }

  // ---------------------------------------------------------------- one pass

  lemma AdvanceOk(cfg: Config, blob: seq<byte>, k: Kernel)
    requires Mapped(cfg, blob) && KernelOk(cfg, k)
    ensures KernelOk(cfg, Advance(k))
    ensures PagesOk(cfg, blob, k.pages) ==> PagesOk(cfg, blob, Advance(k).pages)
  {
  }

  lemma {:induction false} DrainFacts(cfg: Config, blob: seq<byte>, k: Kernel)
    requires Mapped(cfg, blob) && KernelOk(cfg, k)
    ensures var d := Drain(k);
      && Stream(k) == d.evs + Stream(d.k)
      && Coming(d.k) <= Coming(k)
      && KernelOk(cfg, d.k) && EventsOk(cfg, d.evs)
      && (PagesOk(cfg, blob, k.pages) ==> PagesOk(cfg, blob, d.k.pages))
    decreases |Stream(k)|
  {
    ReadStream(k);
    AdvanceOk(cfg, blob, k);
    var (k', e) := ReadEvent(k);
    if e.Some? {
      DrainFacts(cfg, blob, k');
      assert [e.value] + (Drain(k').evs + Stream(Drain(k').k)) == [e.value] + Drain(k').evs + Stream(Drain(k').k);
    }
  }

  /** One read of the drain, with `evs` read before. */
  lemma DrainStep(cfg: Config, k: Kernel, evs: seq<Event>)
    requires cfg.page > 0 && KernelOk(cfg, k)
    ensures var (k', e) := ReadEvent(k);
      && KernelOk(cfg, k')
      && (e.None? ==> Drain(k) == Drained(k', []) && evs + [] == evs)
      && (e.Some? ==> |Stream(k')| < |Stream(k)| && Drain(k).k == Drain(k').k
                      && evs + Drain(k).evs == evs + [e.value] + Drain(k').evs)
  {
    ReadStream(k);
    var (k', e) := ReadEvent(k);
    if e.Some? { ConcatAssociates(evs, [e.value], Drain(k').evs); }
  }

  /** A pass reads nothing, and defers only behind a pending remove. */
  ghost predicate PassOrder(start: Kernel, p: Pass) {
    && Stream(p.k) == Stream(start)
    && Coming(p.k) + SumBy(IsRemove, p.k.queue) == Coming(start) + SumBy(IsRemove, start.queue)
    && (p.deferred != [] ==> RemovePending(p.k.queue))
  }

  ghost predicate PassSound(cfg: Config, blob: seq<byte>, start: Kernel, p: Pass)
    requires cfg.page > 0
  {
    && KernelOk(cfg, p.k) && EventsOk(cfg, p.deferred)
    && (PagesOk(cfg, blob, start.pages) ==> PagesOk(cfg, blob, p.k.pages))
  }

  ghost predicate PassOk(cfg: Config, blob: seq<byte>, start: Kernel, p: Pass)
    requires cfg.page > 0
  {
    PassOrder(start, p) && PassSound(cfg, blob, start, p)
  }

  lemma CopyStream(k: Kernel, dst: nat, data: seq<byte>)
    ensures var (k', done) := Copy(k, dst, data);
      && Stream(k') == Stream(k)
      && Coming(k') + SumBy(IsRemove, k'.queue) == Coming(k) + SumBy(IsRemove, k.queue)
      && (RemovePending(k.queue) || !done ==> RemovePending(k'.queue))
      && (done ==> dst in k'.pages && (dst in Advance(k).pages ==> k'.pages == Advance(k).pages))
  {
    AdvanceStream(k);
  }

  lemma CopyPages(cfg: Config, blob: seq<byte>, k: Kernel, addr: nat)
    requires Mapped(cfg, blob) && KernelOk(cfg, k) && EventOk(cfg, Pagefault(addr))
    ensures var k' := Copy(k, RoundDown(addr, cfg.page), FaultBytes(cfg, blob, addr)).0;
      KernelOk(cfg, k') && (PagesOk(cfg, blob, k.pages) ==> PagesOk(cfg, blob, k'.pages))
  {
    AdvanceOk(cfg, blob, k);
    LocateInFile(cfg.regions, cfg.page, RoundDown(addr, cfg.page));
  }

  lemma HandleOrder(cfg: Config, blob: seq<byte>, start: Kernel, p: Pass, e: Event)
    requires Mapped(cfg, blob) && EventOk(cfg, e) && PassOrder(start, p)
    ensures PassOrder(start, Handle(cfg, blob, p, e))
  {
    if e.Pagefault? {
      CopyStream(p.k, RoundDown(e.addr, cfg.page), FaultBytes(cfg, blob, e.addr));
    }
  }

  lemma HandleSound(cfg: Config, blob: seq<byte>, start: Kernel, p: Pass, e: Event)
    requires Mapped(cfg, blob) && EventOk(cfg, e) && PassSound(cfg, blob, start, p)
    ensures PassSound(cfg, blob, start, Handle(cfg, blob, p, e))
  {
    if e.Pagefault? {
      CopyPages(cfg, blob, p.k, e.addr);
    }
  }

  /** Everything handed to a pass comes out once, handled or deferred. */
  lemma {:induction false} HandleAllFacts(cfg: Config, blob: seq<byte>, start: Kernel, p: Pass, evs: seq<Event>)
    requires Mapped(cfg, blob) && EventsOk(cfg, evs) && PassOk(cfg, blob, start, p)
    ensures var q := HandleAll(cfg, blob, p, evs);
      && PassOk(cfg, blob, start, q)
      && multiset(q.handled) + multiset(q.deferred) == multiset(p.handled) + multiset(p.deferred) + multiset(evs)
    decreases |evs|
  {
    if evs != [] {
      HandleOrder(cfg, blob, start, p, evs[0]);
      HandleSound(cfg, blob, start, p, evs[0]);
      HandleAllFacts(cfg, blob, start, Handle(cfg, blob, p, evs[0]), evs[1..]);
      assert evs == [evs[0]] + evs[1..];
    }
  }

  // ---------------------------------------------------------------- rounds

  datatype Outcome = Outcome(k: Kernel, read: seq<Event>, handled: seq<Event>, rounds: nat)

  /** A deferred fault means that a remove arrived after the queue had been drained. */
  lemma RoundProgress(cfg: Config, blob: seq<byte>, k: Kernel, deferred: seq<Event>)
    requires Mapped(cfg, blob) && KernelOk(cfg, k) && EventsOk(cfg, deferred)
    ensures EventsOk(cfg, deferred + Drain(k).evs)
    ensures var d := Drain(k);
      var p := HandleAll(cfg, blob, Pass(d.k, [], []), deferred + d.evs);
      && PassOk(cfg, blob, d.k, p)
      && multiset(p.handled) + multiset(p.deferred) == multiset(deferred) + multiset(d.evs)
      && Coming(p.k) <= Coming(k)
      && (p.deferred != [] ==> Coming(p.k) < Coming(k))
  {
    DrainFacts(cfg, blob, k);
    var d := Drain(k);
    HandleAllFacts(cfg, blob, d.k, Pass(d.k, [], []), deferred + d.evs);
    var p := HandleAll(cfg, blob, Pass(d.k, [], []), deferred + d.evs);
    if p.deferred != [] {
      SumByZero(IsRemove, p.k.queue);
    }
  }

  function Rounds(cfg: Config, blob: seq<byte>, k: Kernel, deferred: seq<Event>): Outcome
    requires Mapped(cfg, blob) && KernelOk(cfg, k) && EventsOk(cfg, deferred)
    decreases Coming(k)
  {
    RoundProgress(cfg, blob, k, deferred);
    var d := Drain(k);
    var p := HandleAll(cfg, blob, Pass(d.k, [], []), deferred + d.evs);
    if p.deferred == [] then Outcome(p.k, d.evs, p.handled, 1) else
      var o := Rounds(cfg, blob, p.k, p.deferred);
      Outcome(o.k, d.evs + o.read, p.handled + o.handled, 1 + o.rounds)
  }

  /** Dispatch loses nothing: every event it read, or was handed, is handled exactly once. */
  lemma {:induction false} DispatchHandlesOnce(cfg: Config, blob: seq<byte>, k: Kernel, deferred: seq<Event>)
    requires Mapped(cfg, blob) && KernelOk(cfg, k) && EventsOk(cfg, deferred)
    ensures var o := Rounds(cfg, blob, k, deferred);
      multiset(o.handled) == multiset(deferred) + multiset(o.read)
    decreases Coming(k)
  {
    RoundProgress(cfg, blob, k, deferred);
    var d := Drain(k);
    var p := HandleAll(cfg, blob, Pass(d.k, [], []), deferred + d.evs);
    if p.deferred != [] {
      DispatchHandlesOnce(cfg, blob, p.k, p.deferred);
      var o := Rounds(cfg, blob, p.k, p.deferred);
      TwoRounds(deferred, d.evs, p.handled, p.deferred, o.read, o.handled);
    }
  }

  lemma TwoRounds<T>(given: seq<T>, read: seq<T>, handled: seq<T>, left: seq<T>, read2: seq<T>, handled2: seq<T>)
    requires multiset(handled) + multiset(left) == multiset(given) + multiset(read)
    requires multiset(handled2) == multiset(left) + multiset(read2)
    ensures multiset(handled + handled2) == multiset(given) + multiset(read + read2)
  {
    calc {
      multiset(handled + handled2);
      multiset(handled) + (multiset(left) + multiset(read2));
      (multiset(handled) + multiset(left)) + multiset(read2);
      (multiset(given) + multiset(read)) + multiset(read2);
      multiset(given) + multiset(read + read2);
    }
  }

  /** What dispatch did not read is still there, in order. */
  lemma {:induction false} DispatchKeepsUnread(cfg: Config, blob: seq<byte>, k: Kernel, deferred: seq<Event>)
    requires Mapped(cfg, blob) && KernelOk(cfg, k) && EventsOk(cfg, deferred)
    ensures var o := Rounds(cfg, blob, k, deferred);
      Stream(k) == o.read + Stream(o.k)
    decreases Coming(k)
  {
    RoundProgress(cfg, blob, k, deferred);
    DrainFacts(cfg, blob, k);
    var d := Drain(k);
    var p := HandleAll(cfg, blob, Pass(d.k, [], []), deferred + d.evs);
    if p.deferred != [] {
      DispatchKeepsUnread(cfg, blob, p.k, p.deferred);
      var o := Rounds(cfg, blob, p.k, p.deferred);
      ConcatAssociates(d.evs, o.read, Stream(o.k));
    }
  }

  /** Dispatch ends, within one round plus one per newly arriving remove. */
  lemma {:induction false} DispatchRounds(cfg: Config, blob: seq<byte>, k: Kernel, deferred: seq<Event>)
    requires Mapped(cfg, blob) && KernelOk(cfg, k) && EventsOk(cfg, deferred)
    ensures var o := Rounds(cfg, blob, k, deferred);
      Coming(o.k) <= Coming(k) && o.rounds <= 1 + Coming(k) - Coming(o.k)
    decreases Coming(k)
  {
    RoundProgress(cfg, blob, k, deferred);
    var d := Drain(k);
    var p := HandleAll(cfg, blob, Pass(d.k, [], []), deferred + d.evs);
    if p.deferred != [] {
      DispatchRounds(cfg, blob, p.k, p.deferred);
    }
  }

  /** Every page populated on the way holds its backing bytes. */
  lemma {:induction false} DispatchPages(cfg: Config, blob: seq<byte>, k: Kernel, deferred: seq<Event>)
    requires Mapped(cfg, blob) && KernelOk(cfg, k) && EventsOk(cfg, deferred) && PagesOk(cfg, blob, k.pages)
    ensures PagesOk(cfg, blob, Rounds(cfg, blob, k, deferred).k.pages)
    decreases Coming(k)
  {
    RoundProgress(cfg, blob, k, deferred);
    DrainFacts(cfg, blob, k);
    var d := Drain(k);
    var p := HandleAll(cfg, blob, Pass(d.k, [], []), deferred + d.evs);
    if p.deferred != [] {
      DispatchPages(cfg, blob, p.k, p.deferred);
    }
  }

  // ---------------------------------------------------------------- in which order

  /** evs is a and b dealt together, each in its own order. */
  ghost predicate Dealt(evs: seq<Event>, a: seq<Event>, b: seq<Event>)
    decreases |evs|
  {
    if evs == [] then a == [] && b == [] else
      var m := |evs| - 1;
      || (a != [] && a[|a| - 1] == evs[m] && Dealt(evs[..m], a[..|a| - 1], b))
      || (b != [] && b[|b| - 1] == evs[m] && Dealt(evs[..m], a, b[..|b| - 1]))
  }

  lemma DealtGrows(evs: seq<Event>, a: seq<Event>, b: seq<Event>, e: Event)
    requires Dealt(evs, a, b)
    ensures Dealt(evs + [e], a + [e], b) && Dealt(evs + [e], a, b + [e])
  {
    assert (evs + [e])[..|evs|] == evs && (a + [e])[..|a|] == a && (b + [e])[..|b|] == b;
  }

  /** A pass keeps the order of events, among those it handles and among those it defers. */
  lemma {:induction false} PassInOrder(cfg: Config, blob: seq<byte>, p: Pass, done: seq<Event>, evs: seq<Event>)
    requires Mapped(cfg, blob) && EventsOk(cfg, evs) && Dealt(done, p.handled, p.deferred)
    ensures var q := HandleAll(cfg, blob, p, evs); Dealt(done + evs, q.handled, q.deferred)
    decreases |evs|
  {
    if evs == [] {
      assert done + evs == done;
    } else {
      DealtGrows(done, p.handled, p.deferred, evs[0]);
      PassInOrder(cfg, blob, Handle(cfg, blob, p, evs[0]), done + [evs[0]], evs[1..]);
      assert done + [evs[0]] + evs[1..] == done + evs;
    }
  }

  lemma {:induction false} DealtAllOne(evs: seq<Event>, a: seq<Event>)
    requires Dealt(evs, a, [])
    ensures a == evs
  {
    if evs != [] {
      DealtAllOne(evs[..|evs| - 1], a[..|a| - 1]);
      assert a == a[..|a| - 1] + [a[|a| - 1]] && evs == evs[..|evs| - 1] + [evs[|evs| - 1]];
    }
  }

  /** With no remove to arrive, a dispatch handles what was deferred before and then everything it
      reads, in that order, in one round. */
  lemma DispatchInOrder(cfg: Config, blob: seq<byte>, k: Kernel, deferred: seq<Event>)
    requires Mapped(cfg, blob) && KernelOk(cfg, k) && EventsOk(cfg, deferred) && Coming(k) == 0
    ensures var o := Rounds(cfg, blob, k, deferred);
      o.handled == deferred + o.read && o.rounds == 1
  {
    RoundProgress(cfg, blob, k, deferred);
    var d := Drain(k);
    PassInOrder(cfg, blob, Pass(d.k, [], []), [], deferred + d.evs);
    var p := HandleAll(cfg, blob, Pass(d.k, [], []), deferred + d.evs);
    assert [] + (deferred + d.evs) == deferred + d.evs;
    DealtAllOne(deferred + d.evs, p.handled);
  }

  // ---------------------------------------------------------------- what faults get

  /** Time has passed from k to k'. */
  ghost predicate Elapsed(k: Kernel, k': Kernel) {
    |k'.future| <= |k.future| && k'.future == k.future[|k.future| - |k'.future|..]
  }

  /** A remove that arrived between k and k' covers a. */
  ghost predicate RemovedSince(k: Kernel, k': Kernel, a: nat) {
    exists i :: 0 <= i < |k.future| - |k'.future| && Covers(k.future[i].arrivals, a)
  }

  lemma RemovedTrans(k: Kernel, k1: Kernel, k2: Kernel, a: nat)
    requires Elapsed(k, k1) && Elapsed(k1, k2)
    ensures Elapsed(k, k2)
    ensures RemovedSince(k, k2, a) <==> RemovedSince(k, k1, a) || RemovedSince(k1, k2, a)
  {
    var n := |k.future| - |k1.future|;
    assert forall i :: 0 <= i < |k1.future| ==> k1.future[i] == k.future[n + i];
    if RemovedSince(k1, k2, a) {
      var i :| 0 <= i < |k1.future| - |k2.future| && Covers(k1.future[i].arrivals, a);
      assert Covers(k.future[n + i].arrivals, a);
    }
    if RemovedSince(k, k2, a) && !RemovedSince(k, k1, a) {
      var i :| 0 <= i < |k.future| - |k2.future| && Covers(k.future[i].arrivals, a);
      assert Covers(k1.future[i - n].arrivals, a);
    }
  }

  /** Pages asked for by a list of events. */
  ghost predicate Asked(page: nat, evs: seq<Event>, a: nat)
    requires page > 0
  {
    exists i :: 0 <= i < |evs| && evs[i].Pagefault? && RoundDown(evs[i].addr, page) == a
  }

  /** What completing `handled` has done to the pages between k and k': those that were there stay, and
      those that were asked for are there, unless removed since; no others have come. */
  ghost predicate PagesServed(page: nat, k: Kernel, k': Kernel, handled: seq<Event>)
    requires page > 0
  {
    && Elapsed(k, k')
    && (forall a :: a in k.pages ==> (a in k'.pages && k'.pages[a] == k.pages[a]) || RemovedSince(k, k', a))
    && (forall a :: Asked(page, handled, a) ==> a in k'.pages || RemovedSince(k, k', a))
    && (forall a :: a in k'.pages ==> a in k.pages || Asked(page, handled, a))
  }

  lemma AskedConcat(page: nat, evs: seq<Event>, more: seq<Event>, a: nat)
    requires page > 0
    ensures Asked(page, evs + more, a) <==> Asked(page, evs, a) || Asked(page, more, a)
  {
    if Asked(page, evs, a) {
      var i :| 0 <= i < |evs| && evs[i].Pagefault? && RoundDown(evs[i].addr, page) == a;
      assert (evs + more)[i] == evs[i];
    }
    if Asked(page, more, a) {
      var i :| 0 <= i < |more| && more[i].Pagefault? && RoundDown(more[i].addr, page) == a;
      assert (evs + more)[|evs| + i] == more[i];
    }
  }

  lemma ServedTrans(page: nat, k: Kernel, k1: Kernel, k2: Kernel, evs: seq<Event>, more: seq<Event>)
    requires page > 0 && PagesServed(page, k, k1, evs) && PagesServed(page, k1, k2, more)
    ensures PagesServed(page, k, k2, evs + more)
  {
    forall a
      ensures RemovedSince(k, k2, a) <==> RemovedSince(k, k1, a) || RemovedSince(k1, k2, a)
      ensures Asked(page, evs + more, a) <==> Asked(page, evs, a) || Asked(page, more, a)
    {
      RemovedTrans(k, k1, k2, a);
      AskedConcat(page, evs, more, a);
    }
    RemovedTrans(k, k1, k2, 0);
  }

  lemma AdvanceServed(page: nat, k: Kernel)
    requires page > 0
    ensures PagesServed(page, k, Advance(k), [])
  {
    if k.future != [] {
      forall a | a in k.pages && a !in Advance(k).pages ensures RemovedSince(k, Advance(k), a) {
        assert Covers(k.future[0].arrivals, a);
      }
    }
  }

  lemma {:induction false} DrainServed(page: nat, k: Kernel)
    requires page > 0
    ensures PagesServed(page, k, Drain(k).k, [])
    decreases |Stream(k)|
  {
    ReadStream(k);
    AdvanceServed(page, k);
    var (k', e) := ReadEvent(k);
    if e.Some? {
      DrainServed(page, k');
      ServedTrans(page, k, k', Drain(k').k, [], []);
    }
  }

  /** A copy that is not refused leaves its page there, and changes no other page but by removes. */
  lemma CopyServed(page: nat, k: Kernel, addr: nat, data: seq<byte>)
    requires page > 0
    ensures var (k', done) := Copy(k, RoundDown(addr, page), data);
      PagesServed(page, k, k', if done then [Pagefault(addr)] else [])
  {
    AdvanceServed(page, k);
    var dst := RoundDown(addr, page);
    var (k', done) := Copy(k, dst, data);
    if done {
      var asked := [Pagefault(addr)];
      assert asked[0].Pagefault? && RoundDown(asked[0].addr, page) == dst;
      assert forall a :: Asked(page, asked, a) <==> a == dst;
      assert forall a :: RemovedSince(k, k', a) <==> RemovedSince(k, Advance(k), a);
      assert forall a :: !Asked(page, [], a);
    }
  }

  lemma HandleServed(cfg: Config, blob: seq<byte>, start: Kernel, p: Pass, e: Event)
    requires Mapped(cfg, blob) && EventOk(cfg, e) && PagesServed(cfg.page, start, p.k, p.handled)
    ensures var q := Handle(cfg, blob, p, e); PagesServed(cfg.page, start, q.k, q.handled)
  {
    match e {
      case Remove(_, _) => RemoveServed(cfg.page, start, p.k, p.handled, e);
      case Pagefault(addr) =>
        var data := FaultBytes(cfg, blob, addr);
        CopyServed(cfg.page, p.k, addr, data);
        var (k', done) := Copy(p.k, RoundDown(addr, cfg.page), data);
        ServedTrans(cfg.page, start, p.k, k', p.handled, if done then [e] else []);
        assert p.handled + [] == p.handled;
    }
  }

  lemma RemoveServed(page: nat, k: Kernel, k': Kernel, handled: seq<Event>, e: Event)
    requires page > 0 && PagesServed(page, k, k', handled) && e.Remove?
    ensures PagesServed(page, k, k', handled + [e])
  {
    forall a ensures Asked(page, handled + [e], a) <==> Asked(page, handled, a) {
      AskedConcat(page, handled, [e], a);
    }
  }

  lemma {:induction false} HandleAllServed(cfg: Config, blob: seq<byte>, start: Kernel, p: Pass, evs: seq<Event>)
    requires Mapped(cfg, blob) && EventsOk(cfg, evs) && PagesServed(cfg.page, start, p.k, p.handled)
    ensures var q := HandleAll(cfg, blob, p, evs); PagesServed(cfg.page, start, q.k, q.handled)
    decreases |evs|
  {
    if evs != [] {
      HandleServed(cfg, blob, start, p, evs[0]);
      HandleAllServed(cfg, blob, start, Handle(cfg, blob, p, evs[0]), evs[1..]);
    }
  }

  lemma RoundServed(cfg: Config, blob: seq<byte>, k: Kernel, evs: seq<Event>)
    requires Mapped(cfg, blob) && EventsOk(cfg, evs)
    ensures var p := HandleAll(cfg, blob, Pass(Drain(k).k, [], []), evs);
      PagesServed(cfg.page, k, p.k, p.handled)
  {
    var d := Drain(k);
    DrainServed(cfg.page, k);
    HandleAllServed(cfg, blob, k, Pass(d.k, [], []), evs);
  }

  /** Dispatch serves: every page fault it handled finds its page populated, unless a remove that arrived
      meanwhile covers it, and no page appears that no handled fault asked for. */
  lemma {:induction false} DispatchServes(cfg: Config, blob: seq<byte>, k: Kernel, deferred: seq<Event>)
    requires Mapped(cfg, blob) && KernelOk(cfg, k) && EventsOk(cfg, deferred)
    ensures var o := Rounds(cfg, blob, k, deferred); PagesServed(cfg.page, k, o.k, o.handled)
    decreases Coming(k)
  {
    RoundProgress(cfg, blob, k, deferred);
    var d := Drain(k);
    var p := HandleAll(cfg, blob, Pass(d.k, [], []), deferred + d.evs);
    RoundServed(cfg, blob, k, deferred + d.evs);
    if p.deferred != [] {
      DispatchServes(cfg, blob, p.k, p.deferred);
      var o := Rounds(cfg, blob, p.k, p.deferred);
      ServedTrans(cfg.page, k, p.k, o.k, p.handled, o.handled);
    }
  }

  // ---------------------------------------------------------------- the handler

  /** A handler over a local file, or over the same bytes behind a remote chunk cache. */
  class UffdHandler {
    const cfg: Config
    const blob: seq<byte>
    const remote: bool
    const chunks: ChunkCache
    var kernel: Kernel
    var copiedPages: nat

    ghost predicate Valid()
      reads this, chunks
    {
      && Mapped(cfg, blob) && KernelOk(cfg, kernel) && chunks.Valid()
      && chunks.page == cfg.page && chunks.chunk == cfg.chunk
      && chunks.size == RemoteSize(cfg.regions) && chunks.blob == blob
    }

    constructor (cfg: Config, blob: seq<byte>, remote: bool, kernel: Kernel)
      requires Mapped(cfg, blob) && KernelOk(cfg, kernel) && cfg.chunk > 0 && Multiple(cfg.chunk, cfg.page)
      ensures Valid() && fresh(chunks)
      ensures this.cfg == cfg && this.blob == blob && this.remote == remote
      ensures this.kernel == kernel && copiedPages == 0
    {
      this.cfg, this.blob, this.remote, this.kernel, copiedPages := cfg, blob, remote, kernel, 0;
      chunks := new ChunkCache(cfg.page, cfg.chunk, RemoteSize(cfg.regions), blob);
    }

    method PageBytes(off: nat) returns (data: seq<byte>)
      requires Valid() && Multiple(off, cfg.page) && off + cfg.page <= RemoteSize(cfg.regions)
      modifies chunks
      ensures Valid() && data == LocalPage(cfg, blob, off)
    {
      if remote {
        data := chunks.Page(off);
      } else {
        data := blob[off..off + cfg.page];
      }
    }

    /** `serve_pf` and `serve_remote_pf`: one contract, whichever way the bytes come. */
    method Serve(addr: nat) returns (done: bool)
      requires Valid() && EventOk(cfg, Pagefault(addr))
      modifies this, chunks
      ensures Valid() && copiedPages == old(copiedPages)
      ensures (kernel, done) == Copy(old(kernel), RoundDown(addr, cfg.page), FaultBytes(cfg, blob, addr))
    {
      CopyPages(cfg, blob, kernel, addr);
      var dst, off := FileOffsetForAddr(cfg, addr);
      LocateInFile(cfg.regions, cfg.page, dst);
      var data := PageBytes(off.value);
      var (k, ok) := Copy(kernel, dst, data);
      kernel, done := k, ok;
    }

    method ReadEvents() returns (evs: seq<Event>)
      requires Valid()
      modifies this
      ensures Valid() && Drained(kernel, evs) == Drain(old(kernel)) && copiedPages == old(copiedPages)
    {
      evs := [];
      DrainFacts(cfg, blob, kernel);
      while true
        invariant KernelOk(cfg, kernel) && copiedPages == old(copiedPages)
        invariant Drain(old(kernel)) == Drained(Drain(kernel).k, evs + Drain(kernel).evs)
        decreases |Stream(kernel)|
      {
        DrainStep(cfg, kernel, evs);
        var (k, e) := ReadEvent(kernel);
        kernel := k;
        if e.None? { return; }
        evs := evs + [e.value];
      }
    }

    /** The `for` loop over the events at hand. */
    method HandleEvents(evs: seq<Event>) returns (deferred: seq<Event>)
      requires Valid() && EventsOk(cfg, evs)
      modifies this, chunks
      ensures Valid()
      ensures var p := HandleAll(cfg, blob, Pass(old(kernel), [], []), evs);
        kernel == p.k && deferred == p.deferred && copiedPages == old(copiedPages) + SumBy(IsFault, p.handled)
    {
      deferred := [];
      ghost var handled: seq<Event> := [];
      assert evs[0..] == evs;
      for i := 0 to |evs|
        invariant Valid() && copiedPages == old(copiedPages) + SumBy(IsFault, handled)
        invariant HandleAll(cfg, blob, Pass(old(kernel), [], []), evs)
               == HandleAll(cfg, blob, Pass(kernel, deferred, handled), evs[i..])
      {
        assert evs[i..][0] == evs[i] && evs[i..][1..] == evs[i + 1..];
        SumByAppend(IsFault, handled, evs[i]);
        match evs[i] {
          case Remove(start, end) =>
            handled := handled + [evs[i]];
          case Pagefault(addr) =>
            var done := Serve(addr);
            if done {
              copiedPages := copiedPages + 1;
              handled := handled + [evs[i]];
            } else {
              deferred := deferred + [evs[i]];
            }
        }
      }
    }

    /** The dispatch closure. Its effect does not depend on `remote` nor on what was cached. */
    method Dispatch()
      requires Valid()
      modifies this, chunks
      ensures Valid()
      ensures kernel == Rounds(cfg, blob, old(kernel), []).k
      ensures copiedPages == old(copiedPages) + SumBy(IsFault, Rounds(cfg, blob, old(kernel), []).handled)
    {
      var deferred: seq<Event> := [];
      ghost var full := Rounds(cfg, blob, kernel, []);
      while true
        invariant Valid() && EventsOk(cfg, deferred)
        invariant Rounds(cfg, blob, kernel, deferred).k == full.k
        invariant copiedPages + SumBy(IsFault, Rounds(cfg, blob, kernel, deferred).handled)
               == old(copiedPages) + SumBy(IsFault, full.handled)
        decreases Coming(kernel)
      {
        RoundProgress(cfg, blob, kernel, deferred);
        var evs := ReadEvents();
        ghost var p := HandleAll(cfg, blob, Pass(kernel, [], []), deferred + evs);
        deferred := HandleEvents(deferred + evs);
        if deferred == [] { break; }
        SumByConcat(IsFault, p.handled, Rounds(cfg, blob, kernel, deferred).handled);
      }
    }
  }

  lemma {:induction false} RoundsOk(cfg: Config, blob: seq<byte>, k: Kernel, deferred: seq<Event>)
    requires Mapped(cfg, blob) && KernelOk(cfg, k) && EventsOk(cfg, deferred)
    ensures KernelOk(cfg, Rounds(cfg, blob, k, deferred).k)
    decreases Coming(k)
  {
    RoundProgress(cfg, blob, k, deferred);
    var d := Drain(k);
    var p := HandleAll(cfg, blob, Pass(d.k, [], []), deferred + d.evs);
    if p.deferred != [] {
      RoundsOk(cfg, blob, p.k, p.deferred);
    }
  }

  /** Where n dispatches bring a kernel, and the events they handle, told by the kernel and the bytes
      behind the regions alone. */
  datatype Woken = Woken(k: Kernel, handled: seq<Event>)

  ghost function WokenBy(cfg: Config, blob: seq<byte>, k: Kernel, n: nat): Woken
    requires Mapped(cfg, blob) && KernelOk(cfg, k)
    ensures KernelOk(cfg, WokenBy(cfg, blob, k, n).k)
  {
    if n == 0 then Woken(k, []) else
      var before := WokenBy(cfg, blob, k, n - 1);
      var out := Rounds(cfg, blob, before.k, []);
      RoundsOk(cfg, blob, before.k, []);
      Woken(out.k, before.handled + out.handled)
  }

  lemma {:induction false} WokenPages(cfg: Config, blob: seq<byte>, k: Kernel, n: nat)
    requires Mapped(cfg, blob) && KernelOk(cfg, k) && PagesOk(cfg, blob, k.pages)
    ensures PagesOk(cfg, blob, WokenBy(cfg, blob, k, n).k.pages)
  {
    if n > 0 {
      WokenPages(cfg, blob, k, n - 1);
      DispatchPages(cfg, blob, WokenBy(cfg, blob, k, n - 1).k, []);
    }
  }

  /** However often it is woken, a handler serves what it handles. */
  lemma {:induction false} WokenServes(cfg: Config, blob: seq<byte>, k: Kernel, n: nat)
    requires Mapped(cfg, blob) && KernelOk(cfg, k)
    ensures PagesServed(cfg.page, k, WokenBy(cfg, blob, k, n).k, WokenBy(cfg, blob, k, n).handled)
  {
    if n > 0 {
      WokenServes(cfg, blob, k, n - 1);
      var before := WokenBy(cfg, blob, k, n - 1);
      DispatchServes(cfg, blob, before.k, []);
      var out := Rounds(cfg, blob, before.k, []);
      ServedTrans(cfg.page, k, before.k, out.k, before.handled, out.handled);
    }
  }

  /** Every page fault handled has its page with its backing bytes, unless a remove that arrived since
      covers it; with no remove to arrive, without exception. */
  lemma FaultServed(cfg: Config, blob: seq<byte>, k: Kernel, n: nat, addr: nat)
    requires Mapped(cfg, blob) && KernelOk(cfg, k) && PagesOk(cfg, blob, k.pages)
    requires EventOk(cfg, Pagefault(addr)) && Pagefault(addr) in WokenBy(cfg, blob, k, n).handled
    ensures var k', dst := WokenBy(cfg, blob, k, n).k, RoundDown(addr, cfg.page);
      && ((dst in k'.pages && k'.pages[dst] == FaultBytes(cfg, blob, addr)) || RemovedSince(k, k', dst))
      && ((forall i :: 0 <= i < |Later(k.future)| ==> !Later(k.future)[i].Remove?) ==> dst in k'.pages)
  {
    var woken, dst := WokenBy(cfg, blob, k, n), RoundDown(addr, cfg.page);
    WokenServes(cfg, blob, k, n);
    WokenPages(cfg, blob, k, n);
    var i :| 0 <= i < |woken.handled| && woken.handled[i] == Pagefault(addr);
    assert Asked(cfg.page, woken.handled, dst);
    LocateInFile(cfg.regions, cfg.page, dst);
    if RemovedSince(k, woken.k, dst) {
      var t :| 0 <= t < |k.future| - |woken.k.future| && Covers(k.future[t].arrivals, dst);
      var j :| 0 <= j < |k.future[t].arrivals| && k.future[t].arrivals[j].Remove?;
      InLater(k.future, t, j);
    }
  }

  lemma {:induction false} InLater(future: seq<Tick>, t: nat, j: nat)
    requires t < |future| && j < |future[t].arrivals|
    ensures future[t].arrivals[j] in Later(future)
  {
    if t > 0 { InLater(future[1..], t - 1, j); }
  }

  /** A fresh handler of either kind, woken a number of times. */
  method Wake(cfg: Config, blob: seq<byte>, remote: bool, kernel: Kernel, wakeups: nat)
    returns (k: Kernel, copies: nat)
    requires Mapped(cfg, blob) && KernelOk(cfg, kernel) && cfg.chunk > 0 && Multiple(cfg.chunk, cfg.page)
    ensures var woken := WokenBy(cfg, blob, kernel, wakeups); k == woken.k && copies == SumBy(IsFault, woken.handled)
  {
    var handler := new UffdHandler(cfg, blob, remote, kernel);
    for i := 0 to wakeups
      invariant handler.Valid()
      invariant handler.kernel == WokenBy(cfg, blob, kernel, i).k
      invariant handler.copiedPages == SumBy(IsFault, WokenBy(cfg, blob, kernel, i).handled)
    {
      ghost var before := WokenBy(cfg, blob, kernel, i);
      SumByConcat(IsFault, before.handled, Rounds(cfg, blob, before.k, []).handled);
      handler.Dispatch();
    }
    return handler.kernel, handler.copiedPages;
  }

  /** Remote serving refines local serving: however many times the two handlers are woken against
      the same kernel, both bring it to the state the local bytes determine, with the same pages
      populated with the same bytes, and both count the page faults completed. */
  method RemoteRefinesLocal(cfg: Config, blob: seq<byte>, kernel: Kernel, wakeups: nat)
    returns (localKernel: Kernel, remoteKernel: Kernel, localCopies: nat, remoteCopies: nat)
    requires Mapped(cfg, blob) && KernelOk(cfg, kernel) && cfg.chunk > 0 && Multiple(cfg.chunk, cfg.page)
    requires PagesOk(cfg, blob, kernel.pages)
    ensures localKernel == remoteKernel == WokenBy(cfg, blob, kernel, wakeups).k
    ensures localCopies == remoteCopies == SumBy(IsFault, WokenBy(cfg, blob, kernel, wakeups).handled)
    ensures PagesOk(cfg, blob, remoteKernel.pages)
    ensures PagesServed(cfg.page, kernel, remoteKernel, WokenBy(cfg, blob, kernel, wakeups).handled)
  {
    WokenServes(cfg, blob, kernel, wakeups);
    localKernel, localCopies := Wake(cfg, blob, false, kernel, wakeups);
    remoteKernel, remoteCopies := Wake(cfg, blob, true, kernel, wakeups);
    WokenPages(cfg, blob, kernel, wakeups);
  }
}
