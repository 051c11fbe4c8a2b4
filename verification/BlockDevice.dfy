/** The virtio block device: moving descriptor chains from the available ring to the used ring. */
module BlockDevice {
  import opened Common
  import opened BlockRequest

  /** A chain the driver made available: the queue's head index, the chain, and the header found in
      guest memory. `serial` tells offers apart when the driver reuses a head index. */
  datatype Offer = Offer(serial: nat, index: nat, head: Descriptor, header: Option<Header>)

  /** A request handed to the asynchronous engine. */
  datatype Pending = Pending(offer: Offer, kind: RequestType, dataLen: u32)

  /** An entry of the used ring; `offer` is the chain it was written for. */
  datatype Used = Used(index: nat, len: u32, offer: Offer)

  /** The split queue as the device sees it: the chains made available so far, oldest first, the
      index of the next one to pop, and the used entries written. */
  datatype RawQueue = RawQueue(ring: seq<Offer>, next: nat, used: seq<Used>)

  type Queue = q: RawQueue | q.next <= |q.ring| witness RawQueue([], 0, [])

  /** Chains still available. */
  function Avail(q: Queue): seq<Offer> { q.ring[q.next..] }

  function Pop(q: Queue): (Queue, Option<Offer>) {
    if q.next == |q.ring| then (q, None) else (q.(next := q.next + 1), Some(q.ring[q.next]))
  }

  /** Steps back over the chain popped last. */
  function UndoPop(q: Queue): Queue
    requires q.next > 0
  {
    q.(next := q.next - 1)
  }

  function AddUsed(q: Queue, index: nat, len: u32, offer: Offer): Queue {
    q.(used := q.used + [Used(index, len, offer)])
  }

  datatype Device = Device(queue: Queue, inflight: seq<Pending>, limiter: Limiter, throttled: bool)

  /** What the file engine says to a request. */
  datatype Engine = Submitted | Executed(count: u32) | EngineThrottled | IoError

  /** The world's answers to one request: the engine's, whether the device id could be written to
      guest memory, and whether the status byte could. */
  datatype Answer = Answer(engine: Engine, idWritten: bool, statusWritten: bool)

  /** What is answered depends on the turn, on how many requests are in flight, and on the request. */
  type World = (nat, nat, Request) -> Answer

  /** The engine throttles only while it holds requests, and never moves more than it was asked to. */
  predicate AnswerOk(inflight: nat, req: Request, a: Answer) {
    && (a.engine.EngineThrottled? ==> inflight > 0)
    && (a.engine.Executed? ==> a.engine.count <= req.dataLen)
  }

  ghost predicate EngineOk(w: World) {
    forall turn, inflight, req :: AnswerOk(inflight, req, w(turn, inflight, req))
  }

  datatype Processing = Submit | Throttle | Execute(len: u32)

  function Process(req: Request, a: Answer): Processing {
    match req.kind
    case GetDeviceId =>
      var written := if a.idWritten then Some(ID_BYTES as u32) else None;
      Execute(UsedLength(StatusOf(req.kind, req.dataLen, written), a.statusWritten))
    case Unsupported(_) => Execute(UsedLength(StatusOf(req.kind, req.dataLen, Some(0)), a.statusWritten))
    case _ =>
      match a.engine
      case Submitted => Submit
      case EngineThrottled => Throttle
      case Executed(n) => Execute(UsedLength(StatusOf(req.kind, req.dataLen, Some(n)), a.statusWritten))
      case IoError => Execute(UsedLength(StatusOf(req.kind, req.dataLen, None), a.statusWritten))
  }

  /** What one turn of the queue loop does with the head it popped. */
  datatype Turn =
    | Retire(len: u32)                            // done: into the used ring
    | Hand(kind: RequestType, dataLen: u32)       // submitted: in flight
    | PutBack(engineThrottled: bool)              // throttled: undo_pop and stop

  /** The turn, and the limiter's state after it. Stopping for the limiter means it has closed. */
  function Decide(d: Device, o: Offer, sectors: u64, w: World, turn: nat): (r: (Turn, Limiter))
    ensures r.0 == PutBack(false) ==> r.1.blocked
  {
    match Parse(o.head, o.header, sectors)
    case Err(_) => (Retire(0), d.limiter)
    case Ok(req) =>
      var (l, blocked) := RateLimit(d.limiter, req);
      if blocked then (PutBack(false), l) else
        match Process(req, w(turn, |d.inflight|, req))
        case Submit => (Hand(req.kind, req.dataLen), l)
        case Throttle => (PutBack(true), l)
        case Execute(len) => (Retire(len), l)
  }

  /** The effect of a turn, on a device that has just popped `o`. */
  function Settle(d: Device, o: Offer, turn: Turn): Device
    requires d.queue.next > 0
  {
    match turn
    case Retire(len) => d.(queue := AddUsed(d.queue, o.index, len, o))
    case Hand(kind, dataLen) => d.(inflight := d.inflight + [Pending(o, kind, dataLen)])
    case PutBack(engineThrottled) => d.(queue := UndoPop(d.queue), throttled := d.throttled || engineThrottled)
  }

  /** One turn on a non-empty available ring: the new state, and whether to go on. */
  function ServeHead(d: Device, sectors: u64, w: World, turn: nat): (r: (Device, bool))
    requires Pop(d.queue).1.Some?
    ensures |Avail(r.0.queue)| == |Avail(d.queue)| - if r.1 then 1 else 0
  {
    var (q, head) := Pop(d.queue);
    var (t, l) := Decide(d, head.value, sectors, w, turn);
    (Settle(d.(queue := q, limiter := l), head.value, t), !t.PutBack?)
  }

  function ProcessQueue(d: Device, sectors: u64, w: World, turn: nat): Device
    decreases |Avail(d.queue)|
  {
    if Pop(d.queue).1.None? then d else
      var (d', go) := ServeHead(d, sectors, w, turn);
      if go then ProcessQueue(d', sectors, w, turn + 1) else d'
  }

  /** A completion: which in-flight request, with how many bytes moved or an error. */
  datatype Completion = Completion(slot: nat, res: Option<u32>, statusWritten: bool)

  function Complete(d: Device, c: Completion): Device
    requires c.slot < |d.inflight|
  {
    var p := d.inflight[c.slot];
    var len := UsedLength(StatusOf(p.kind, p.dataLen, c.res), c.statusWritten);
    d.(inflight := Without(d.inflight, c.slot), queue := AddUsed(d.queue, p.offer.index, len, p.offer))
  }

  function Without<T>(s: seq<T>, i: nat): seq<T>
    requires i < |s|
  {
    s[..i] + s[i + 1..]
  }

  /** Completions the engine may give: each for a request still in flight, with no more bytes than it
      asked for. */
  ghost predicate CompletionsOk(inflight: seq<Pending>, cs: seq<Completion>)
    decreases |cs|
  {
    cs == [] ||
    (&& cs[0].slot < |inflight| && (cs[0].res.Some? ==> cs[0].res.value <= inflight[cs[0].slot].dataLen)
     && CompletionsOk(Without(inflight, cs[0].slot), cs[1..]))
  }

  /** Completions are taken until the engine has none left to give. */
  function ProcessCompletions(d: Device, cs: seq<Completion>): Device
    decreases |cs|
  {
    if cs == [] || cs[0].slot >= |d.inflight| then d
    else ProcessCompletions(Complete(d, cs[0]), cs[1..])
  }

  // ---------------------------------------------------------------- events

  datatype Event =
    | DriverOffers(offers: seq<Offer>)
    | QueueEvent(w: World)
    | RateLimiterEvent(ops: nat, bytes: nat, w: World)
    | CompletionEvent(cs: seq<Completion>, w: World)
    | PrepareSave(cs: seq<Completion>)

  /** A device with its surroundings: everything offered so far, whether a queue notification is
      pending, and whether the engine's completion event is. */
  datatype System = System(d: Device, offered: seq<Offer>, notified: bool, signalled: bool)

  function OnQueueEvent(d: Device, sectors: u64, w: World): Device {
    if d.limiter.blocked || d.throttled then d else ProcessQueue(d, sectors, w, 0)
  }

  function OnRateLimiterEvent(d: Device, sectors: u64, ops: nat, bytes: nat, w: World): Device {
    ProcessQueue(d.(limiter := Limiter(ops, bytes, false)), sectors, w, 0)
  }

  function OnCompletionEvent(d: Device, sectors: u64, cs: seq<Completion>, w: World): Device {
    var d' := ProcessCompletions(d, cs);
    if d'.throttled then ProcessQueue(d'.(throttled := false), sectors, w, 0) else d'
  }

  /** Draining before a snapshot takes the completions, not the event that announced them. */
  function Step(s: System, sectors: u64, ev: Event): System {
    match ev
    case DriverOffers(os) =>
      s.(d := s.d.(queue := s.d.queue.(ring := s.d.queue.ring + os)), offered := s.offered + os, notified := true)
    case QueueEvent(w) => s.(notified := false, d := OnQueueEvent(s.d, sectors, w))
    case RateLimiterEvent(ops, bytes, w) => s.(d := OnRateLimiterEvent(s.d, sectors, ops, bytes, w))
    case CompletionEvent(cs, w) => s.(signalled := false, d := OnCompletionEvent(s.d, sectors, cs, w))
    case PrepareSave(cs) => s.(signalled := s.signalled || cs != [], d := ProcessCompletions(s.d, cs))
  }

  function Run(s: System, sectors: u64, evs: seq<Event>): System
    decreases |evs|
  {
    if evs == [] then s else Run(Step(s, sectors, evs[0]), sectors, evs[1..])
  }

  /** The engine keeps its contract; a drain gives back everything in flight. */
  ghost predicate Allowed(s: System, ev: Event) {
    match ev
    case DriverOffers(_) => true
    case QueueEvent(w) => EngineOk(w)
    case RateLimiterEvent(_, _, w) => EngineOk(w)
    case CompletionEvent(cs, w) => CompletionsOk(s.d.inflight, cs) && EngineOk(w)
    case PrepareSave(cs) => CompletionsOk(s.d.inflight, cs) && |cs| == |s.d.inflight|
  }

  ghost predicate Legal(s: System, sectors: u64, evs: seq<Event>)
    decreases |evs|
  {
    evs == [] || (Allowed(s, evs[0]) && Legal(Step(s, sectors, evs[0]), sectors, evs[1..]))
  }

  // ---------------------------------------------------------------- conservation

  function IsOffer(x: Offer): Offer -> nat { (o: Offer) => if o == x then 1 else 0 }
  function IsPending(x: Offer): Pending -> nat { (p: Pending) => if p.offer == x then 1 else 0 }
  function IsUsed(x: Offer): Used -> nat { (u: Used) => if u.offer == x then 1 else 0 }

  /** In how many places the device holds an offer: available, in flight, or retired. */
  ghost function Places(d: Device, x: Offer): nat {
    SumBy(IsOffer(x), Avail(d.queue)) + SumBy(IsPending(x), d.inflight) + SumBy(IsUsed(x), d.queue.used)
  }

  /** Popping takes the oldest available chain, and undoing it puts that very chain back in front. */
  lemma PopUndone(q: Queue)
    requires Pop(q).1.Some?
    ensures Avail(q) == [Pop(q).1.value] + Avail(Pop(q).0)
    ensures UndoPop(Pop(q).0) == q
  {
  }

  lemma SettlePlaces(d: Device, o: Offer, turn: Turn, x: Offer)
    requires d.queue.next > 0 && d.queue.ring[d.queue.next - 1] == o
    ensures Places(Settle(d, o, turn), x) == Places(d, x) + IsOffer(x)(o)
  {
    match turn {
      case Retire(len) => SumByAppend(IsUsed(x), d.queue.used, Used(o.index, len, o));
      case Hand(kind, dataLen) => SumByAppend(IsPending(x), d.inflight, Pending(o, kind, dataLen));
      case PutBack(_) => UndonePlaces(d.queue, o, x);
    }
  }

  lemma UndonePlaces(q: Queue, o: Offer, x: Offer)
    requires q.next > 0 && q.ring[q.next - 1] == o
    ensures SumBy(IsOffer(x), Avail(UndoPop(q))) == SumBy(IsOffer(x), Avail(q)) + IsOffer(x)(o)
  {
    PopUndone(UndoPop(q));
    SumByHead(IsOffer(x), Avail(UndoPop(q)));
  }

  /** Whatever becomes of a head, it is held as often after its turn as before it was popped. */
  lemma ServeHeadPlaces(d: Device, sectors: u64, w: World, turn: nat, x: Offer)
    requires Pop(d.queue).1.Some?
    ensures Places(ServeHead(d, sectors, w, turn).0, x) == Places(d, x)
  {
    var (q, head) := Pop(d.queue);
    var (t, l) := Decide(d, head.value, sectors, w, turn);
    PopUndone(d.queue);
    SumByHead(IsOffer(x), Avail(d.queue));
    SettlePlaces(d.(queue := q, limiter := l), head.value, t, x);
  }

  lemma {:induction false} ProcessQueuePlaces(d: Device, sectors: u64, w: World, turn: nat, x: Offer)
    ensures Places(ProcessQueue(d, sectors, w, turn), x) == Places(d, x)
    decreases |Avail(d.queue)|
  {
    if Pop(d.queue).1.Some? {
      ServeHeadPlaces(d, sectors, w, turn, x);
      var r := ServeHead(d, sectors, w, turn);
      if r.1 {
        ProcessQueuePlaces(r.0, sectors, w, turn + 1, x);
      }
    }
  }

  lemma {:induction false} CompletionsPlaces(d: Device, cs: seq<Completion>, x: Offer)
    ensures Places(ProcessCompletions(d, cs), x) == Places(d, x)
    decreases |cs|
  {
    if cs != [] && cs[0].slot < |d.inflight| {
      var d' := Complete(d, cs[0]);
      SumByRemove(IsPending(x), d.inflight, cs[0].slot);
      SumByAppend(IsUsed(x), d.queue.used, d'.queue.used[|d.queue.used|]);
      CompletionsPlaces(d', cs[1..], x);
    }
  }

  lemma DriverOffersPlaces(d: Device, os: seq<Offer>, x: Offer)
    ensures Places(d.(queue := d.queue.(ring := d.queue.ring + os)), x) == Places(d, x) + SumBy(IsOffer(x), os)
  {
    var q := d.queue.(ring := d.queue.ring + os);
    assert Avail(q) == Avail(d.queue) + os;
    SumByConcat(IsOffer(x), Avail(d.queue), os);
  }

  lemma StepPlaces(s: System, sectors: u64, ev: Event, x: Offer)
    requires Places(s.d, x) == SumBy(IsOffer(x), s.offered)
    ensures Places(Step(s, sectors, ev).d, x) == SumBy(IsOffer(x), Step(s, sectors, ev).offered)
  {
    match ev {
      case DriverOffers(os) =>
        DriverOffersPlaces(s.d, os, x);
        SumByConcat(IsOffer(x), s.offered, os);
      case QueueEvent(w) => ProcessQueuePlaces(s.d, sectors, w, 0, x);
      case RateLimiterEvent(ops, bytes, w) =>
        ProcessQueuePlaces(s.d.(limiter := Limiter(ops, bytes, false)), sectors, w, 0, x);
      case CompletionEvent(cs, w) =>
        CompletionsPlaces(s.d, cs, x);
        ProcessQueuePlaces(ProcessCompletions(s.d, cs).(throttled := false), sectors, w, 0, x);
      case PrepareSave(cs) => CompletionsPlaces(s.d, cs, x);
    }
  }

  // ---------------------------------------------------------------- used entries

  /** A used entry carries its chain's own head index. A chain that does not parse retires with
      nothing written; otherwise at most the data and the status byte are, and the data part is
      empty unless the request reads, or is exactly the device id. */
  predicate EntryOk(u: Used, sectors: u64) {
    u.index == u.offer.index &&
    match Parse(u.offer.head, u.offer.header, sectors)
    case Err(_) => u.len == 0
    case Ok(req) =>
      && u.len <= req.dataLen + 1
      && (req.kind.GetDeviceId? ==> u.len <= 1 || u.len == ID_BYTES + 1)
      && (!req.kind.In? && !req.kind.GetDeviceId? ==> u.len <= 1)
  }

  predicate PendingOk(p: Pending, sectors: u64) {
    var r := Parse(p.offer.head, p.offer.header, sectors);
    && r.Ok? && r.req.kind == p.kind && r.req.dataLen == p.dataLen
    && !p.kind.GetDeviceId? && !p.kind.Unsupported?
  }

  ghost predicate UsedOk(d: Device, sectors: u64) {
    && (forall i :: 0 <= i < |d.queue.used| ==> EntryOk(d.queue.used[i], sectors))
    && (forall i :: 0 <= i < |d.inflight| ==> PendingOk(d.inflight[i], sectors))
  }

  /** What finishing an accepted request reports is an honest entry. */
  lemma FinishHonest(o: Offer, sectors: u64, res: Option<u32>, statusWritten: bool)
    requires Parse(o.head, o.header, sectors).Ok?
    requires var req := Parse(o.head, o.header, sectors).req;
      && (res.Some? ==> res.value <= req.dataLen)
      && (req.kind.GetDeviceId? && res.Some? ==> res.value == ID_BYTES)
    ensures var req := Parse(o.head, o.header, sectors).req;
      EntryOk(Used(o.index, UsedLength(StatusOf(req.kind, req.dataLen, res), statusWritten), o), sectors)
  {
    CompletionExact(o.head, o.header, sectors, res);
  }

  lemma DecideHonest(d: Device, o: Offer, sectors: u64, w: World, turn: nat)
    requires EngineOk(w)
    ensures var t := Decide(d, o, sectors, w, turn).0;
      && (t.Retire? ==> EntryOk(Used(o.index, t.len, o), sectors))
      && (t.Hand? ==> PendingOk(Pending(o, t.kind, t.dataLen), sectors))
      && (t == PutBack(true) ==> d.inflight != [])
  {
    var parsed := Parse(o.head, o.header, sectors);
    if parsed.Ok? {
      var req := parsed.req;
      var a := w(turn, |d.inflight|, req);
      assert AnswerOk(|d.inflight|, req, a);
      FinishHonest(o, sectors, None, a.statusWritten);
      if req.kind.GetDeviceId? {
        ParseSound(o.head, o.header, sectors);
        FinishHonest(o, sectors, Some(ID_BYTES as u32), a.statusWritten);
      } else {
        FinishHonest(o, sectors, Some(0), a.statusWritten);
        if a.engine.Executed? { FinishHonest(o, sectors, Some(a.engine.count), a.statusWritten); }
      }
    }
  }

  lemma SettleUsed(d: Device, o: Offer, sectors: u64, turn: Turn)
    requires d.queue.next > 0 && UsedOk(d, sectors)
    requires turn.Retire? ==> EntryOk(Used(o.index, turn.len, o), sectors)
    requires turn.Hand? ==> PendingOk(Pending(o, turn.kind, turn.dataLen), sectors)
    ensures UsedOk(Settle(d, o, turn), sectors)
  {
  }

  lemma {:induction false} ProcessQueueUsed(d: Device, sectors: u64, w: World, turn: nat)
    requires UsedOk(d, sectors) && EngineOk(w)
    ensures UsedOk(ProcessQueue(d, sectors, w, turn), sectors)
    decreases |Avail(d.queue)|
  {
    if Pop(d.queue).1.Some? {
      var (q, head) := Pop(d.queue);
      var (t, l) := Decide(d, head.value, sectors, w, turn);
      DecideHonest(d, head.value, sectors, w, turn);
      SettleUsed(d.(queue := q, limiter := l), head.value, sectors, t);
      var (d', go) := ServeHead(d, sectors, w, turn);
      if go {
        ProcessQueueUsed(d', sectors, w, turn + 1);
      }
    }
  }

  lemma CompleteUsed(d: Device, sectors: u64, c: Completion)
    requires c.slot < |d.inflight| && UsedOk(d, sectors)
    requires c.res.Some? ==> c.res.value <= d.inflight[c.slot].dataLen
    ensures UsedOk(Complete(d, c), sectors)
  {
    var d', p := Complete(d, c), d.inflight[c.slot];
    assert PendingOk(p, sectors);
    FinishHonest(p.offer, sectors, c.res, c.statusWritten);
    forall i | 0 <= i < |d'.inflight| ensures PendingOk(d'.inflight[i], sectors) {
      assert d'.inflight[i] == d.inflight[if i < c.slot then i else i + 1];
    }
    forall i | 0 <= i < |d'.queue.used| ensures EntryOk(d'.queue.used[i], sectors) {
      if i < |d.queue.used| { assert d'.queue.used[i] == d.queue.used[i]; }
    }
  }

  lemma {:induction false} CompletionsUsed(d: Device, sectors: u64, cs: seq<Completion>)
    requires UsedOk(d, sectors) && CompletionsOk(d.inflight, cs)
    ensures UsedOk(ProcessCompletions(d, cs), sectors)
    decreases |cs|
  {
    if cs != [] {
      CompleteUsed(d, sectors, cs[0]);
      CompletionsUsed(Complete(d, cs[0]), sectors, cs[1..]);
    }
  }

  // ---------------------------------------------------------------- what becomes of a head

  /** The head the next turn takes, and what it parses to. */
  function Head(d: Device): Offer
    requires Pop(d.queue).1.Some?
  {
    Pop(d.queue).1.value
  }

  function HeadParsed(d: Device, sectors: u64): Parsed
    requires Pop(d.queue).1.Some?
  {
    Parse(Head(d).head, Head(d).header, sectors)
  }

  /** Used length by its meaning: nothing without the status byte, else the status byte and the data. */
  function ExactLength(statusWritten: bool, data: nat): nat {
    if statusWritten then data + 1 else 0
  }

  /** The head of d is in the used ring of d', with this length, and gone from the available ring. */
  ghost predicate HeadRetired(d: Device, d': Device, len: nat)
    requires Pop(d.queue).1.Some?
  {
    && d'.queue.ring == d.queue.ring && d'.queue.next == d.queue.next + 1
    && |d'.queue.used| == |d.queue.used| + 1 && d'.queue.used[..|d.queue.used|] == d.queue.used
    && d'.queue.used[|d.queue.used|].offer == Head(d)
    && d'.queue.used[|d.queue.used|].index == Head(d).index
    && d'.queue.used[|d.queue.used|].len == len
    && d'.inflight == d.inflight && d'.throttled == d.throttled
  }

  ghost predicate HeadSubmitted(d: Device, d': Device, req: Request)
    requires Pop(d.queue).1.Some?
  {
    && d'.queue == d.queue.(next := d.queue.next + 1) && d'.throttled == d.throttled
    && d'.inflight == d.inflight + [Pending(Head(d), req.kind, req.dataLen)]
  }

  /** The head is available again; the flag tells whether the engine turned it away. */
  ghost predicate HeadBack(d: Device, d': Device, byEngine: bool) {
    && d'.queue == d.queue && d'.inflight == d.inflight
    && d'.throttled == (d.throttled || byEngine)
  }

  /** A head that does not parse retires with nothing written; one the limiter stops is available
      again behind a closed limiter. Neither reaches the engine. */
  lemma UnservedHead(d: Device, sectors: u64, w: World, turn: nat)
    requires Pop(d.queue).1.Some?
    ensures var (d', go) := ServeHead(d, sectors, w, turn);
      var parsed := HeadParsed(d, sectors);
      && (parsed.Err? ==> go && HeadRetired(d, d', 0) && d'.limiter == d.limiter)
      && (parsed.Ok? && RateLimit(d.limiter, parsed.req).1 ==>
            !go && HeadBack(d, d', false) && d'.limiter == d.limiter.(blocked := true))
  {
    PopUndone(d.queue);
  }

  ghost predicate Serviceable(d: Device, sectors: u64) {
    && Pop(d.queue).1.Some? && HeadParsed(d, sectors).Ok?
    && !RateLimit(d.limiter, HeadParsed(d, sectors).req).1
  }

  /** What the engine answers decides where an accepted transfer or flush goes: in flight exactly when
      submitted, back exactly when the engine throttles, otherwise into the used ring with what a
      read moved. */
  lemma EngineDecides(d: Device, sectors: u64, w: World, turn: nat)
    requires Serviceable(d, sectors) && EngineOk(w)
    requires var k := HeadParsed(d, sectors).req.kind; k.In? || k.Out? || k.Flush?
    ensures var (d', go) := ServeHead(d, sectors, w, turn);
      var req := HeadParsed(d, sectors).req;
      var a := w(turn, |d.inflight|, req);
      match a.engine
      case Submitted => go && HeadSubmitted(d, d', req)
      case EngineThrottled => !go && HeadBack(d, d', true)
      case Executed(n) => go && HeadRetired(d, d', ExactLength(a.statusWritten, if req.kind.In? then n else 0))
      case IoError => go && HeadRetired(d, d', ExactLength(a.statusWritten, 0))
  {
    PopUndone(d.queue);
    var o, req := Head(d), HeadParsed(d, sectors).req;
    var a := w(turn, |d.inflight|, req);
    assert AnswerOk(|d.inflight|, req, a);
    CompletionExact(o.head, o.header, sectors, None);
    if a.engine.Executed? { CompletionExact(o.head, o.header, sectors, Some(a.engine.count)); }
  }

  /** A device id request and an unsupported one are answered at once, whatever the engine would say. */
  lemma AnsweredAtOnce(d: Device, sectors: u64, w: World, turn: nat)
    requires Serviceable(d, sectors)
    requires var k := HeadParsed(d, sectors).req.kind; k.GetDeviceId? || k.Unsupported?
    ensures var (d', go) := ServeHead(d, sectors, w, turn);
      var req := HeadParsed(d, sectors).req;
      var a := w(turn, |d.inflight|, req);
      go && HeadRetired(d, d', ExactLength(a.statusWritten,
                                           if req.kind.GetDeviceId? && a.idWritten then ID_BYTES else 0))
  {
    var o, req := Head(d), HeadParsed(d, sectors).req;
    ParseSound(o.head, o.header, sectors);
    CompletionExact(o.head, o.header, sectors, None);
    if req.kind.GetDeviceId? { CompletionExact(o.head, o.header, sectors, Some(ID_BYTES as u32)); }
  }

  /** A completion takes one request out of flight and writes its chain's used entry, with what a read
      moved. */
  lemma CompletionRetires(d: Device, sectors: u64, c: Completion)
    requires c.slot < |d.inflight| && PendingOk(d.inflight[c.slot], sectors)
    requires c.res.Some? ==> c.res.value <= d.inflight[c.slot].dataLen
    ensures var d', p := Complete(d, c), d.inflight[c.slot];
      && d'.inflight == Without(d.inflight, c.slot)
      && d'.queue.ring == d.queue.ring && d'.queue.next == d.queue.next
      && |d'.queue.used| == |d.queue.used| + 1 && d'.queue.used[..|d.queue.used|] == d.queue.used
      && var u := d'.queue.used[|d.queue.used|];
         && u.offer == p.offer && u.index == p.offer.index
         && u.len == ExactLength(c.statusWritten, if p.kind.In? && c.res.Some? then c.res.value else 0)
  {
    var p := d.inflight[c.slot];
    CompletionExact(p.offer.head, p.offer.header, sectors, c.res);
  }

  // ---------------------------------------------------------------- order, and who will serve the rest

  /** Chains taken off the ring for good: in flight or retired. */
  function Settled(d: Device): nat { |d.inflight| + |d.queue.used| }

  /** The queue loop moves past exactly the chains it settled; throttled heads stay where they were
      in the ring, and it stops only at an empty ring or a closed throttle. */
  lemma {:induction false} ProcessQueueOrderly(d: Device, sectors: u64, w: World, turn: nat)
    ensures var d' := ProcessQueue(d, sectors, w, turn);
      && d'.queue.ring == d.queue.ring && d.queue.next <= d'.queue.next
      && d'.queue.next - d.queue.next == Settled(d') - Settled(d)
      && (Avail(d'.queue) == [] || d'.limiter.blocked || d'.throttled)
    decreases |Avail(d.queue)|
  {
    if Pop(d.queue).1.Some? {
      var (d', go) := ServeHead(d, sectors, w, turn);
      if go {
        ProcessQueueOrderly(d', sectors, w, turn + 1);
      }
    }
  }

  /** Throttling by the engine leaves it something to complete. */
  lemma {:induction false} ProcessQueueThrottles(d: Device, sectors: u64, w: World, turn: nat)
    requires EngineOk(w)
    ensures var d' := ProcessQueue(d, sectors, w, turn);
      && |d.inflight| <= |d'.inflight|
      && (d'.throttled ==> d.throttled || d'.inflight != [])
    decreases |Avail(d.queue)|
  {
    if Pop(d.queue).1.Some? {
      DecideHonest(d, Pop(d.queue).1.value, sectors, w, turn);
      var (d', go) := ServeHead(d, sectors, w, turn);
      if go {
        ProcessQueueThrottles(d', sectors, w, turn + 1);
      }
    }
  }

  lemma {:induction false} CompletionsQuiet(d: Device, cs: seq<Completion>)
    ensures var d' := ProcessCompletions(d, cs);
      && d'.queue.ring == d.queue.ring && d'.queue.next == d.queue.next && Settled(d') == Settled(d)
      && d'.limiter == d.limiter && d'.throttled == d.throttled
    decreases |cs|
  {
    if cs != [] && cs[0].slot < |d.inflight| {
      CompletionsQuiet(Complete(d, cs[0]), cs[1..]);
    }
  }

  /** Draining before a snapshot: when the engine gives every request back, none stays in flight. */
  lemma {:induction false} DrainEmpties(d: Device, cs: seq<Completion>)
    requires CompletionsOk(d.inflight, cs) && |cs| == |d.inflight|
    ensures ProcessCompletions(d, cs).inflight == []
    decreases |cs|
  {
    if cs != [] {
      DrainEmpties(Complete(d, cs[0]), cs[1..]);
    }
  }

  /** The ring is what was offered, in order; exactly the chains before the next one to pop have been
      settled; used entries are honest. No chain waits without a notification, the limiter's timer,
      or a request in flight or completion event that ends the engine's throttling. */
  ghost predicate InOrder(s: System, sectors: u64) {
    && s.d.queue.ring == s.offered && s.d.queue.next == Settled(s.d)
    && UsedOk(s.d, sectors)
    && (Avail(s.d.queue) != [] ==> s.notified || s.d.limiter.blocked || s.d.throttled)
    && (s.d.throttled ==> s.d.inflight != [] || s.signalled)
  }

  lemma ServedInOrder(s: System, d: Device, sectors: u64, w: World)
    requires d.queue.ring == s.offered && d.queue.next == Settled(d) && UsedOk(d, sectors) && EngineOk(w)
    requires d.throttled ==> d.inflight != [] || s.signalled
    ensures InOrder(s.(d := ProcessQueue(d, sectors, w, 0)), sectors)
  {
    ProcessQueueOrderly(d, sectors, w, 0);
    ProcessQueueUsed(d, sectors, w, 0);
    ProcessQueueThrottles(d, sectors, w, 0);
  }

  lemma StepInOrder(s: System, sectors: u64, ev: Event)
    requires InOrder(s, sectors) && Allowed(s, ev)
    ensures InOrder(Step(s, sectors, ev), sectors)
  {
    match ev {
      case DriverOffers(os) =>
      case QueueEvent(w) =>
        if !s.d.limiter.blocked && !s.d.throttled { ServedInOrder(s.(notified := false), s.d, sectors, w); }
      case RateLimiterEvent(ops, bytes, w) =>
        ServedInOrder(s, s.d.(limiter := Limiter(ops, bytes, false)), sectors, w);
      case CompletionEvent(cs, w) =>
        CompletionsQuiet(s.d, cs);
        CompletionsUsed(s.d, sectors, cs);
        var d := ProcessCompletions(s.d, cs);
        if d.throttled { ServedInOrder(s.(signalled := false), d.(throttled := false), sectors, w); }
      case PrepareSave(cs) =>
        CompletionsQuiet(s.d, cs);
        CompletionsUsed(s.d, sectors, cs);
    }
  }

  // ---------------------------------------------------------------- every run

  /** Conservation, over every interleaving of driver, queue, rate-limiter and completion events:
      an offer sits in as many places as it was made, so a chain offered once is in exactly one. */
  lemma {:induction false} VirtqueueConservation(s: System, sectors: u64, evs: seq<Event>, x: Offer)
    requires Places(s.d, x) == SumBy(IsOffer(x), s.offered)
    ensures Places(Run(s, sectors, evs).d, x) == SumBy(IsOffer(x), Run(s, sectors, evs).offered)
    decreases |evs|
  {
    if evs != [] {
      StepPlaces(s, sectors, evs[0], x);
      VirtqueueConservation(Step(s, sectors, evs[0]), sectors, evs[1..], x);
    }
  }

  /** Order, over every interleaving: throttled heads are back in the available ring as they were
      offered, something is always due that will serve them, and used entries are honest. */
  lemma {:induction false} VirtqueueOrder(s: System, sectors: u64, evs: seq<Event>)
    requires InOrder(s, sectors) && Legal(s, sectors, evs)
    ensures InOrder(Run(s, sectors, evs), sectors)
    decreases |evs|
  {
    if evs != [] {
      StepInOrder(s, sectors, evs[0]);
      VirtqueueOrder(Step(s, sectors, evs[0]), sectors, evs[1..]);
    }
  }

  function Fresh(limiter: Limiter): System {
    System(Device(RawQueue([], 0, []), [], limiter, false), [], false, false)
  }

  /** From a fresh device on: a chain offered exactly once is in exactly one place, always. */
  lemma ChainInOnePlace(limiter: Limiter, sectors: u64, evs: seq<Event>, x: Offer)
    requires Legal(Fresh(limiter), sectors, evs)
    ensures var s := Run(Fresh(limiter), sectors, evs);
      && InOrder(s, sectors)
      && (SumBy(IsOffer(x), s.offered) == 1 ==> Places(s.d, x) == 1)
  {
    VirtqueueConservation(Fresh(limiter), sectors, evs, x);
    VirtqueueOrder(Fresh(limiter), sectors, evs);
  }

  // ---------------------------------------------------------------- the synchronous engine

  ghost predicate Synchronous(w: World) {
    forall turn, inflight, req :: !w(turn, inflight, req).engine.Submitted?
  }

  /** Nothing is in flight, and the used ring repeats the available ring up to the next chain. */
  ghost predicate RetiredInOrder(d: Device) {
    && d.inflight == [] && |d.queue.used| == d.queue.next
    && (forall i :: 0 <= i < |d.queue.used| ==> d.queue.used[i].offer == d.queue.ring[i])
  }

  lemma {:induction false} ProcessQueueRetires(d: Device, sectors: u64, w: World, turn: nat)
    requires RetiredInOrder(d) && Synchronous(w)
    ensures RetiredInOrder(ProcessQueue(d, sectors, w, turn))
    decreases |Avail(d.queue)|
  {
    if Pop(d.queue).1.Some? {
      var r := ServeHead(d, sectors, w, turn);
      if r.1 {
        ProcessQueueRetires(r.0, sectors, w, turn + 1);
      }
    }
  }

  ghost predicate AllSynchronous(evs: seq<Event>) {
    forall n :: 0 <= n < |evs| ==>
      match evs[n]
      case QueueEvent(w) => Synchronous(w)
      case RateLimiterEvent(_, _, w) => Synchronous(w)
      case CompletionEvent(_, w) => Synchronous(w)
      case _ => true
  }

  /** With an engine that submits nothing, chains retire in the order they were offered, whatever the
      limiter does in between. */
  lemma {:induction false} SynchronousInOrder(s: System, sectors: u64, evs: seq<Event>)
    requires RetiredInOrder(s.d) && AllSynchronous(evs)
    ensures RetiredInOrder(Run(s, sectors, evs).d)
    decreases |evs|
  {
    if evs != [] {
      match evs[0] {
        case DriverOffers(os) =>
        case QueueEvent(w) => ProcessQueueRetires(s.d, sectors, w, 0);
        case RateLimiterEvent(ops, bytes, w) =>
          ProcessQueueRetires(s.d.(limiter := Limiter(ops, bytes, false)), sectors, w, 0);
        case CompletionEvent(cs, w) => ProcessQueueRetires(s.d.(throttled := false), sectors, w, 0);
        case PrepareSave(cs) =>
      }
      SynchronousInOrder(Step(s, sectors, evs[0]), sectors, evs[1..]);
    }
  }

  // ---------------------------------------------------------------- the device

  class VirtioBlock {
    const sectors: u64
    var queue: Queue
    var inflight: seq<Pending>
    var limiter: Limiter
    var ioEngineThrottled: bool

    function View(): Device
      reads this
    {
      Device(queue, inflight, limiter, ioEngineThrottled)
    }

    constructor (sectors: u64, limiter: Limiter)
      ensures this.sectors == sectors && View() == Fresh(limiter).d
    {
      this.sectors, this.limiter := sectors, limiter;
      queue, inflight, ioEngineThrottled := RawQueue([], 0, []), [], false;
    }

    /** `process_queue`: pop, and on either throttle undo the pop and stop. */
    method ProcessQueueLoop(w: World)
      modifies this
      ensures View() == ProcessQueue(old(View()), sectors, w, 0)
    {
      var turn := 0;
      while true
        invariant ProcessQueue(View(), sectors, w, turn) == ProcessQueue(old(View()), sectors, w, 0)
        decreases |Avail(queue)|
      {
        ghost var before := View();
        var (q, popped) := Pop(queue);
        queue := q;
        if popped.None? { break; }
        var head := popped.value;
        var parsed := Parse(head.head, head.header, sectors);
        if parsed.Err? {
          queue := AddUsed(queue, head.index, 0, head);
        } else {
          var (l, blocked) := RateLimit(limiter, parsed.req);
          limiter := l;
          if blocked {
            queue := UndoPop(queue);
            break;
          }
          match Process(parsed.req, w(turn, |inflight|, parsed.req)) {
            case Submit =>
              inflight := inflight + [Pending(head, parsed.req.kind, parsed.req.dataLen)];
            case Throttle =>
              queue := UndoPop(queue);
              ioEngineThrottled := true;
              break;
            case Execute(len) =>
              queue := AddUsed(queue, head.index, len, head);
          }
        }
        assert (View(), true) == ServeHead(before, sectors, w, turn);
        turn := turn + 1;
      }
    }

    method ProcessAsyncCompletionQueue(cs: seq<Completion>)
      modifies this
      ensures View() == ProcessCompletions(old(View()), cs)
    {
      var i := 0;
      assert cs[0..] == cs;
      while i < |cs| && cs[i].slot < |inflight|
        invariant 0 <= i <= |cs|
        invariant ProcessCompletions(View(), cs[i..]) == ProcessCompletions(old(View()), cs)
      {
        var c := cs[i];
        assert cs[i..][0] == c && cs[i..][1..] == cs[i + 1..];
        var p := inflight[c.slot];
        inflight := inflight[..c.slot] + inflight[c.slot + 1..];
        var len := UsedLength(StatusOf(p.kind, p.dataLen, c.res), c.statusWritten);
        queue := AddUsed(queue, p.offer.index, len, p.offer);
        i := i + 1;
      }
    }

    method ProcessQueueEvent(w: World)
      modifies this
      ensures View() == OnQueueEvent(old(View()), sectors, w)
    {
      if limiter.blocked {
      } else if ioEngineThrottled {
      } else {
        ProcessQueueLoop(w);
      }
    }

    method ProcessRateLimiterEvent(ops: nat, bytes: nat, w: World)
      modifies this
      ensures View() == OnRateLimiterEvent(old(View()), sectors, ops, bytes, w)
    {
      limiter := Limiter(ops, bytes, false);
      ProcessQueueLoop(w);
    }

    method ProcessAsyncCompletionEvent(cs: seq<Completion>, w: World)
      modifies this
      ensures View() == OnCompletionEvent(old(View()), sectors, cs, w)
    {
      ProcessAsyncCompletionQueue(cs);
      if ioEngineThrottled {
        ioEngineThrottled := false;
        ProcessQueueLoop(w);
      }
    }

    method PrepareSave(cs: seq<Completion>)
      requires CompletionsOk(inflight, cs) && |cs| == |inflight|
      modifies this
      ensures View() == ProcessCompletions(old(View()), cs) && inflight == []
    {
      DrainEmpties(View(), cs);
      ProcessAsyncCompletionQueue(cs);
    }
  }
}
