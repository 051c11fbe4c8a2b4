/** `run_external_with_prepare`: a start gate and a finish gate between main and its workers. */
module RunGates {
  import opened Common
  import Alignment
  import WorkSplit

  datatype Reason = PrepareFailed | Aborted | OriginMissing | OpFailed

  datatype Pc =
    | Preparing           // running prepare_fn
    | Failing             // prepare failed, about to record it
    | Arriving            // prepared, about to take the start lock
    | Parked              // inside the start gate's wait loop
    | Cleared             // through the gate, about to read the run origin
    | Running             // running its operations
    | Holding             // inside the finish gate's wait loop, runner still alive
    | Done                // returned its measurements; the runner is dropped
    | Gone(why: Reason)   // returned an error; the runner is dropped

  /** A worker with the share of the work its closure captured; results are instance ids. */
  datatype Worker = Worker(pc: Pc, offset: nat, count: nat, results: seq<nat>)

  datatype RunError = CaptureBefore | CaptureAfter | WorkerError | NotStarted
  datatype RunResult = Ok(ids: seq<nat>) | Err(e: RunError)

  datatype Main =
    | Gathering
    | Watching
    | Joining(started: bool, next: nat, acc: seq<nat>)
    | Returned(r: RunResult)

  /** `asleep` is the set of workers blocked in the condition variable of the gate. */
  datatype StartGate = StartGate(ready: nat, start: bool, failure: bool, asleep: set<nat>)
  datatype FinishGate = FinishGate(finished: nat, release: bool, asleep: set<nat>)

  /** `captured` records that main has taken wall time and usage. */
  datatype Sys = Sys(
    workers: seq<Worker>, main: Main, mainAsleep: bool,
    g: StartGate, f: FinishGate, origin: bool, captured: bool)

  datatype Event =
    | Prepared(i: nat, ok: bool)
    | RecordFailure(i: nat)
    | Arrive(i: nat)
    | Recheck(i: nat)
    | ReadOrigin(i: nat)
    | Operate(i: nat, ok: bool)
    | Report(i: nat)
    | RecheckFinish(i: nat)
    | MainGate(captureOk: bool)
    | MainWatch(captureOk: bool)
    | MainJoin
    | Spurious(i: nat)
    | SpuriousMain

  predicate Ended(w: Worker) { w.pc.Done? || w.pc.Gone? }

  /** The conditions main waits for; only then does it read its resource usage, which can fail. */
  predicate GateReady(s: Sys) { s.g.ready >= |s.workers| || s.g.failure }
  predicate AllFinished(s: Sys) { s.f.finished >= |s.workers| }

  predicate Enabled(s: Sys, ev: Event) {
    match ev
    case Prepared(i, _) => i < |s.workers| && s.workers[i].pc.Preparing?
    case RecordFailure(i) => i < |s.workers| && s.workers[i].pc.Failing?
    case Arrive(i) => i < |s.workers| && s.workers[i].pc.Arriving?
    case Recheck(i) => i < |s.workers| && s.workers[i].pc.Parked? && i !in s.g.asleep
    case ReadOrigin(i) => i < |s.workers| && s.workers[i].pc.Cleared?
    case Operate(i, _) => i < |s.workers| && s.workers[i].pc.Running? && |s.workers[i].results| < s.workers[i].count
    case Report(i) => i < |s.workers| && s.workers[i].pc.Running? && |s.workers[i].results| >= s.workers[i].count
    case RecheckFinish(i) => i < |s.workers| && s.workers[i].pc.Holding? && i !in s.f.asleep
    case MainGate(captureOk) => s.main.Gathering? && !s.mainAsleep && (captureOk || GateReady(s))
    case MainWatch(captureOk) => s.main.Watching? && !s.mainAsleep && (captureOk || AllFinished(s))
    case MainJoin => s.main.Joining? && (s.main.next >= |s.workers| || Ended(s.workers[s.main.next]))
    case Spurious(i) => i in s.g.asleep || i in s.f.asleep
    case SpuriousMain => s.mainAsleep
  }

  function MoveTo(s: Sys, i: nat, pc: Pc): Sys
    requires i < |s.workers|
  {
    s.(workers := s.workers[i := s.workers[i].(pc := pc)])
  }

  /** notify_all on the start gate: every worker asleep there wakes, and main if it waits there. */
  function NotifyStart(s: Sys): Sys {
    s.(g := s.g.(asleep := {}), mainAsleep := s.mainAsleep && !s.main.Gathering?)
  }

  function NotifyFinish(s: Sys): Sys {
    s.(f := s.f.(asleep := {}), mainAsleep := s.mainAsleep && !s.main.Watching?)
  }

  /** The wait loop of the start gate, from the point where the worker holds the lock. */
  function GateLoop(s: Sys, i: nat): Sys
    requires i < |s.workers|
  {
    if !s.g.start && !s.g.failure then MoveTo(s, i, Parked).(g := s.g.(asleep := s.g.asleep + {i}))
    else if s.g.failure then MoveTo(s, i, Gone(Aborted))
    else MoveTo(s, i, Cleared)
  }

  function FinishLoop(s: Sys, i: nat): Sys
    requires i < |s.workers|
  {
    if !s.f.release then MoveTo(s, i, Holding).(f := s.f.(asleep := s.f.asleep + {i}))
    else MoveTo(s, i, Done)
  }

  function StepGate(s: Sys, captureOk: bool): Sys {
    if !GateReady(s) then s.(mainAsleep := true)
    else if !captureOk then s.(main := Returned(Err(CaptureBefore)))
    else if s.g.failure then NotifyStart(s).(main := Joining(false, 0, []))
    else NotifyStart(s.(origin := true, g := s.g.(start := true))).(main := Watching)
  }

  function StepWatch(s: Sys, captureOk: bool): Sys {
    if !AllFinished(s) then s.(mainAsleep := true)
    else
      NotifyFinish(s.(captured := true, f := s.f.(release := true)))
        .(main := if captureOk then Joining(true, 0, []) else Returned(Err(CaptureAfter)))
  }

  function StepJoin(s: Sys): Sys
    requires Enabled(s, MainJoin)
  {
    var j := s.main.next;
    if j >= |s.workers| then
      s.(main := Returned(if s.main.started then Ok(s.main.acc) else Err(NotStarted)))
    else if s.workers[j].pc.Gone? then s.(main := Returned(Err(WorkerError)))
    else s.(main := Joining(s.main.started, j + 1, s.main.acc + s.workers[j].results))
  }

  function Step(s: Sys, ev: Event): Sys
    requires Enabled(s, ev)
  {
    match ev
    case Prepared(i, ok) => MoveTo(s, i, if ok then Arriving else Failing)
    case RecordFailure(i) => NotifyStart(MoveTo(s.(g := s.g.(failure := true)), i, Gone(PrepareFailed)))
    case Arrive(i) => GateLoop(NotifyStart(s.(g := s.g.(ready := s.g.ready + 1))), i)
    case Recheck(i) => GateLoop(s, i)
    case ReadOrigin(i) => MoveTo(s, i, if s.origin then Running else Gone(OriginMissing))
    case Operate(i, ok) =>
      var w := s.workers[i];
      if ok then s.(workers := s.workers[i := w.(results := w.results + [w.offset + |w.results|])])
      else MoveTo(s, i, Gone(OpFailed))
    case Report(i) => FinishLoop(NotifyFinish(s.(f := s.f.(finished := s.f.finished + 1))), i)
    case RecheckFinish(i) => FinishLoop(s, i)
    case MainGate(captureOk) => StepGate(s, captureOk)
    case MainWatch(captureOk) => StepWatch(s, captureOk)
    case MainJoin => StepJoin(s)
    case Spurious(i) => s.(g := s.g.(asleep := s.g.asleep - {i}), f := s.f.(asleep := s.f.asleep - {i}))
    case SpuriousMain => s.(mainAsleep := false)
  }

  // ---------------------------------------------------------------- runs

  /** A run of `total` operations over min(concurrency, total) workers. */
  function Init(total: nat, concurrency: nat): Sys {
    var n := WorkSplit.WorkerCount(total, concurrency);
    Sys(seq(n, i requires 0 <= i < n =>
              Worker(Preparing, WorkSplit.IterationOffset(total, n, i), WorkSplit.IterationCount(total, n, i), [])),
        Gathering, false, StartGate(0, false, false, {}), FinishGate(0, false, {}), false, false)
  }

  predicate Legal(s: Sys, evs: seq<Event>)
    decreases |evs|
  {
    evs == [] || (Enabled(s, evs[0]) && Legal(Step(s, evs[0]), evs[1..]))
  }

  function Exec(s: Sys, evs: seq<Event>): Sys
    requires Legal(s, evs)
    decreases |evs|
  {
    if evs == [] then s else Exec(Step(s, evs[0]), evs[1..])
  }

  // ---------------------------------------------------------------- invariant

  function Ids(from: nat, n: nat): seq<nat> {
    seq(n, i requires 0 <= i => from + i)
  }

  function Arrived(w: Worker): nat {
    if w.pc.Preparing? || w.pc.Failing? || w.pc.Arriving? || w.pc == Gone(PrepareFailed) then 0 else 1
  }

  function Finished(w: Worker): nat {
    if w.pc.Holding? || w.pc.Done? then 1 else 0
  }

  /** First instance id of worker j, or the total past the last worker. */
  function FirstId(ws: seq<Worker>, total: nat, j: nat): nat
    requires j <= |ws|
  {
    if j == |ws| then total else ws[j].offset
  }

  ghost predicate Plan(ws: seq<Worker>, total: nat) {
    FirstId(ws, total, 0) == 0
    && forall j :: 0 <= j < |ws| ==> ws[j].offset + ws[j].count == FirstId(ws, total, j + 1)
  }

  ghost predicate WorkerOk(g: StartGate, f: FinishGate, i: nat, w: Worker) {
    && |w.results| <= w.count && w.results == Ids(w.offset, |w.results|)
    && (i in g.asleep ==> w.pc.Parked? && !g.start && !g.failure)
    && (i in f.asleep ==> w.pc.Holding? && !f.release)
    && match w.pc
       case Preparing => !g.start && w.results == []
       case Failing => !g.start && w.results == []
       case Arriving => !g.start && w.results == []
       case Parked => w.results == []
       case Cleared => g.start && !f.release && w.results == []
       case Running => g.start && !f.release
       case Holding => g.start && |w.results| == w.count
       case Done => g.start && f.release && |w.results| == w.count
       case Gone(PrepareFailed) => g.failure && !g.start && w.results == []
       case Gone(Aborted) => g.failure && w.results == []
       case Gone(OriginMissing) => false
       case Gone(OpFailed) => g.start && !f.release
  }

  ghost predicate MainOk(s: Sys, total: nat) {
    match s.main
    case Gathering => !s.g.start && (s.mainAsleep ==> s.g.ready < |s.workers| && !s.g.failure)
    case Watching => s.g.start && !s.f.release && (s.mainAsleep ==> s.f.finished < |s.workers|)
    case Joining(started, j, acc) =>
      && !s.mainAsleep && j <= |s.workers|
      && if started then s.f.release && acc == Ids(0, FirstId(s.workers, total, j)) else s.g.failure && j == 0
    case Returned(Ok(ids)) => !s.mainAsleep && s.f.release && ids == Ids(0, total)
    case Returned(Err(CaptureBefore)) => !s.mainAsleep && !s.g.start
    case Returned(Err(CaptureAfter)) => !s.mainAsleep && s.f.release
    case Returned(Err(WorkerError)) => !s.mainAsleep && s.g.failure
    case Returned(Err(NotStarted)) => false
  }

  ghost predicate GatesOk(s: Sys) {
    && (s.g.start ==> s.origin && !s.g.failure) && (s.g.failure ==> |s.workers| > 0)
    && (s.f.release ==> s.g.start && s.captured && s.f.finished == |s.workers|)
    && s.g.ready == SumBy(Arrived, s.workers) && s.f.finished == SumBy(Finished, s.workers)
  }

  ghost predicate WorkersOk(s: Sys) {
    forall i :: 0 <= i < |s.workers| ==> WorkerOk(s.g, s.f, i, s.workers[i])
  }

  ghost predicate SleepersOk(s: Sys) {
    forall i :: i in s.g.asleep || i in s.f.asleep ==> i < |s.workers|
  }

  ghost predicate Inv(s: Sys, total: nat) {
    WorkersOk(s) && GatesOk(s) && MainOk(s, total) && Plan(s.workers, total) && SleepersOk(s)
  }

  // ---------------------------------------------------------------- every step keeps it

  lemma PlanMove(ws: seq<Worker>, total: nat, i: nat, w: Worker)
    requires Plan(ws, total) && i < |ws| && w.offset == ws[i].offset && w.count == ws[i].count
    ensures Plan(ws[i := w], total)
    ensures forall j :: 0 <= j <= |ws| ==> FirstId(ws[i := w], total, j) == FirstId(ws, total, j)
  {
  }

  lemma CountMove(s: Sys, t: Sys, i: nat)
    requires i < |s.workers| == |t.workers| && t.workers == s.workers[i := t.workers[i]]
    ensures SumBy(Arrived, t.workers) == SumBy(Arrived, s.workers) - Arrived(s.workers[i]) + Arrived(t.workers[i])
    ensures SumBy(Finished, t.workers) == SumBy(Finished, s.workers) - Finished(s.workers[i]) + Finished(t.workers[i])
  {
    SumByUpdate(Arrived, s.workers, i, t.workers[i]);
    SumByUpdate(Finished, s.workers, i, t.workers[i]);
  }

  /** A worker that has not arrived keeps the count below the number of workers, and so on. */
  lemma Shortfall(s: Sys, i: nat)
    requires i < |s.workers|
    ensures SumBy(Arrived, s.workers) <= |s.workers| && SumBy(Finished, s.workers) <= |s.workers|
    ensures Arrived(s.workers[i]) == 0 ==> SumBy(Arrived, s.workers) < |s.workers|
    ensures Finished(s.workers[i]) == 0 ==> SumBy(Finished, s.workers) < |s.workers|
  {
    SumByFull(Arrived, s.workers);
    SumByFull(Finished, s.workers);
  }

  /** What the steps of worker i have in common. */
  ghost predicate WorkerMove(s: Sys, t: Sys, i: nat) {
    && i < |s.workers| == |t.workers| && t.workers == s.workers[i := t.workers[i]]
    && t.workers[i].offset == s.workers[i].offset && t.workers[i].count == s.workers[i].count
    && t.main == s.main && t.origin == s.origin && t.captured == s.captured
    && t.g.start == s.g.start && t.f.release == s.f.release
    && t.g.ready == s.g.ready - Arrived(s.workers[i]) + Arrived(t.workers[i])
    && t.f.finished == s.f.finished - Finished(s.workers[i]) + Finished(t.workers[i])
    && (s.g.failure ==> t.g.failure) && (t.g.failure ==> s.g.failure || !s.g.start)
    && t.g.asleep <= (if t.g.failure == s.g.failure then s.g.asleep else {}) + {i}
    && t.f.asleep <= s.f.asleep + {i}
    && (s.f.release ==> t.f.finished == s.f.finished)
    && (t.mainAsleep ==> s.mainAsleep)
    && (t.mainAsleep && s.main.Gathering? ==> t.g.ready == s.g.ready && t.g.failure == s.g.failure)
    && (t.mainAsleep && s.main.Watching? ==> t.f.finished == s.f.finished)
    && WorkerOk(t.g, t.f, i, t.workers[i])
  }

  lemma MoveGates(s: Sys, t: Sys, i: nat)
    requires GatesOk(s) && WorkerMove(s, t, i)
    ensures GatesOk(t)
  {
    CountMove(s, t, i);
    Shortfall(t, i);
  }

  lemma MoveOthers(s: Sys, t: Sys, i: nat)
    requires WorkersOk(s) && SleepersOk(s) && WorkerMove(s, t, i)
    ensures WorkersOk(t) && SleepersOk(t)
  {
    forall j | 0 <= j < |t.workers| ensures WorkerOk(t.g, t.f, j, t.workers[j]) {
      assert WorkerOk(s.g, s.f, j, s.workers[j]);
    }
  }

  lemma MoveMain(s: Sys, t: Sys, total: nat, i: nat)
    requires MainOk(s, total) && GatesOk(s) && Plan(s.workers, total) && WorkerMove(s, t, i)
    ensures MainOk(t, total) && Plan(t.workers, total)
  {
    PlanMove(s.workers, total, i, t.workers[i]);
  }

  lemma MoveKeeps(s: Sys, t: Sys, total: nat, i: nat)
    requires Inv(s, total) && WorkerMove(s, t, i)
    ensures Inv(t, total)
  {
    MoveGates(s, t, i);
    MoveOthers(s, t, i);
    MoveMain(s, t, total, i);
  }

  lemma EarlySteps(s: Sys, ev: Event)
    requires GatesOk(s) && Enabled(s, ev) && (ev.Prepared? || ev.RecordFailure? || ev.ReadOrigin? || ev.Operate?)
    requires WorkerOk(s.g, s.f, ev.i, s.workers[ev.i])
    ensures WorkerMove(s, Step(s, ev), ev.i)
  {
  }

  lemma StartGateSteps(s: Sys, ev: Event)
    requires GatesOk(s) && Enabled(s, ev) && (ev.Arrive? || ev.Recheck?)
    requires WorkerOk(s.g, s.f, ev.i, s.workers[ev.i])
    ensures WorkerMove(s, Step(s, ev), ev.i)
  {
    Shortfall(s, ev.i);
  }

  lemma FinishGateSteps(s: Sys, ev: Event)
    requires GatesOk(s) && Enabled(s, ev) && (ev.Report? || ev.RecheckFinish?)
    requires WorkerOk(s.g, s.f, ev.i, s.workers[ev.i])
    ensures WorkerMove(s, Step(s, ev), ev.i)
  {
    Shortfall(s, ev.i);
  }

  lemma MainGateKeeps(s: Sys, total: nat, captureOk: bool)
    requires Inv(s, total) && Enabled(s, MainGate(captureOk))
    ensures Inv(Step(s, MainGate(captureOk)), total)
  {
    var t := Step(s, MainGate(captureOk));
    SumByFull(Arrived, s.workers);
    forall j | 0 <= j < |t.workers| ensures WorkerOk(t.g, t.f, j, t.workers[j]) {
      assert WorkerOk(s.g, s.f, j, s.workers[j]);
    }
  }

  lemma MainWatchKeeps(s: Sys, total: nat, captureOk: bool)
    requires Inv(s, total) && Enabled(s, MainWatch(captureOk))
    ensures Inv(Step(s, MainWatch(captureOk)), total)
  {
    var t := Step(s, MainWatch(captureOk));
    SumByFull(Finished, s.workers);
    forall j | 0 <= j < |t.workers| ensures WorkerOk(t.g, t.f, j, t.workers[j]) {
      assert WorkerOk(s.g, s.f, j, s.workers[j]);
    }
  }

  lemma IdsConcat(from: nat, m: nat, n: nat)
    ensures Ids(from, m) + Ids(from + m, n) == Ids(from, m + n)
  {
  }

  lemma JoinOne(acc: seq<nat>, w: Worker)
    requires acc == Ids(0, w.offset) && w.results == Ids(w.offset, w.count)
    ensures acc + w.results == Ids(0, w.offset + w.count)
  {
    IdsConcat(0, w.offset, w.count);
  }

  /** Joining one more finished worker extends the ids by exactly its share. */
  lemma JoinExtends(s: Sys, total: nat)
    requires MainOk(s, total) && Plan(s.workers, total) && s.main.Joining? && s.main.started
    requires var j := s.main.next;
      j < |s.workers| && s.workers[j].results == Ids(s.workers[j].offset, s.workers[j].count)
    ensures s.main.acc + s.workers[s.main.next].results == Ids(0, FirstId(s.workers, total, s.main.next + 1))
  {
    JoinOne(s.main.acc, s.workers[s.main.next]);
  }

  /** After the release, a worker that has ended has all its results. */
  lemma EndedAfterRelease(g: StartGate, f: FinishGate, i: nat, w: Worker)
    requires WorkerOk(g, f, i, w) && Ended(w) && f.release && g.start && !g.failure
    ensures w.pc.Done? && w.results == Ids(w.offset, w.count)
  {
  }

  lemma JoinStarted(s: Sys, total: nat)
    requires MainOk(s, total) && Enabled(s, MainJoin) && s.main.started
    requires s.main.next < |s.workers| ==>
      && s.workers[s.main.next].pc.Done?
      && s.main.acc + s.workers[s.main.next].results == Ids(0, FirstId(s.workers, total, s.main.next + 1))
    ensures MainOk(Step(s, MainJoin), total)
  {
  }

  /** Without a start nobody can have finished, so the first join already meets an error. */
  lemma JoinFailed(s: Sys, total: nat)
    requires MainOk(s, total) && Enabled(s, MainJoin) && !s.main.started && |s.workers| > 0
    requires WorkerOk(s.g, s.f, 0, s.workers[0]) && (s.g.start ==> !s.g.failure)
    ensures MainOk(Step(s, MainJoin), total)
  {
    assert s.workers[0].pc.Gone?;
  }

  lemma MainJoinKeeps(s: Sys, total: nat)
    requires Inv(s, total) && Enabled(s, MainJoin)
    ensures Inv(Step(s, MainJoin), total)
  {
    if s.main.started {
      var j := s.main.next;
      if j < |s.workers| {
        EndedAfterRelease(s.g, s.f, j, s.workers[j]);
        JoinExtends(s, total);
      }
      JoinStarted(s, total);
    } else {
      assert WorkerOk(s.g, s.f, 0, s.workers[0]);
      JoinFailed(s, total);
    }
  }

  lemma SpuriousKeeps(s: Sys, total: nat, ev: Event)
    requires Inv(s, total) && Enabled(s, ev) && (ev.Spurious? || ev.SpuriousMain?)
    ensures Inv(Step(s, ev), total)
  {
    var t := Step(s, ev);
    forall j | 0 <= j < |t.workers| ensures WorkerOk(t.g, t.f, j, t.workers[j]) {
      assert WorkerOk(s.g, s.f, j, s.workers[j]);
    }
  }

  predicate OfMain(ev: Event) {
    ev.MainGate? || ev.MainWatch? || ev.MainJoin? || ev.SpuriousMain? || ev.Spurious?
  }

  lemma StepKeeps(s: Sys, total: nat, ev: Event)
    requires Inv(s, total) && Enabled(s, ev)
    ensures Inv(Step(s, ev), total)
  {
    if OfMain(ev) {
      match ev {
        case MainGate(captureOk) => MainGateKeeps(s, total, captureOk);
        case MainWatch(captureOk) => MainWatchKeeps(s, total, captureOk);
        case MainJoin => MainJoinKeeps(s, total);
        case Spurious(_) => SpuriousKeeps(s, total, ev);
        case SpuriousMain => SpuriousKeeps(s, total, ev);
      }
    } else {
      assert WorkerOk(s.g, s.f, ev.i, s.workers[ev.i]);
      if ev.Arrive? || ev.Recheck? {
        StartGateSteps(s, ev);
      } else if ev.Report? || ev.RecheckFinish? {
        FinishGateSteps(s, ev);
      } else {
        EarlySteps(s, ev);
      }
      MoveKeeps(s, Step(s, ev), total, ev.i);
    }
  }

  lemma {:induction false} RunKeeps(s: Sys, total: nat, evs: seq<Event>)
    requires Inv(s, total) && Legal(s, evs)
    ensures Inv(Exec(s, evs), total)
    decreases |evs|
  {
    if evs != [] {
      StepKeeps(s, total, evs[0]);
      RunKeeps(Step(s, evs[0]), total, evs[1..]);
    }
  }

  lemma InitOk(total: nat, concurrency: nat)
    requires concurrency > 0 && total <= WorkSplit.USIZE_MAX
    ensures Inv(Init(total, concurrency), total)
  {
    var s, n := Init(total, concurrency), WorkSplit.WorkerCount(total, concurrency);
    SumByZero(Arrived, s.workers);
    SumByZero(Finished, s.workers);
    forall j | 0 <= j < n ensures s.workers[j].offset + s.workers[j].count == FirstId(s.workers, total, j + 1) {
      WorkSplit.ExactPartition(total, n, j, j);
    }
    if n > 0 { WorkSplit.ExactPartition(total, n, 0, 0); }
  }

  // ---------------------------------------------------------------- what every run guarantees

  /** Start gate: `start` means everybody is prepared, nobody failed and the origin is set; a worker
      running operations is past it, and no worker ever finds the origin missing. */
  lemma StartGateSafe(total: nat, concurrency: nat, evs: seq<Event>, i: nat)
    requires concurrency > 0 && total <= WorkSplit.USIZE_MAX && Legal(Init(total, concurrency), evs)
    requires i < |Exec(Init(total, concurrency), evs).workers|
    ensures var s := Exec(Init(total, concurrency), evs);
      && (s.g.start ==> s.origin && !s.g.failure && s.g.ready == |s.workers| && Arrived(s.workers[i]) == 1)
      && (s.workers[i].pc.Cleared? || s.workers[i].pc.Running? || s.workers[i].results != [] ==> s.g.start)
      && s.workers[i].pc != Gone(OriginMissing)
  {
    InitOk(total, concurrency);
    RunKeeps(Init(total, concurrency), total, evs);
    var s := Exec(Init(total, concurrency), evs);
    assert WorkerOk(s.g, s.f, i, s.workers[i]);
    SumByFull(Arrived, s.workers);
    if s.g.start {
      forall j | 0 <= j < |s.workers| ensures Arrived(s.workers[j]) == 1 {
        assert WorkerOk(s.g, s.f, j, s.workers[j]);
      }
    }
  }

  /** One failed prepare: no worker ever runs an operation, every worker that returns returns an
      error, and so does the run. */
  lemma PrepareFailureStopsRun(total: nat, concurrency: nat, evs: seq<Event>, bad: nat, i: nat)
    requires concurrency > 0 && total <= WorkSplit.USIZE_MAX && Legal(Init(total, concurrency), evs)
    requires var s := Exec(Init(total, concurrency), evs);
      && bad < |s.workers| && i < |s.workers|
      && (s.workers[bad].pc.Failing? || s.workers[bad].pc == Gone(PrepareFailed))
    ensures var s := Exec(Init(total, concurrency), evs);
      && s.workers[i].results == [] && !s.workers[i].pc.Running?
      && (Ended(s.workers[i]) ==> s.workers[i].pc.Gone?)
      && (s.main.Returned? ==> s.main.r.Err?)
  {
    InitOk(total, concurrency);
    RunKeeps(Init(total, concurrency), total, evs);
    var s := Exec(Init(total, concurrency), evs);
    assert WorkerOk(s.g, s.f, bad, s.workers[bad]);
    assert WorkerOk(s.g, s.f, i, s.workers[i]);
  }

  /** Finish gate: a worker drops its runner with success only after main has captured wall time
      and usage; a successful run returns the instance ids 0, 1, ..., total - 1 in order. */
  lemma FinishGateSafe(total: nat, concurrency: nat, evs: seq<Event>, i: nat)
    requires concurrency > 0 && total <= WorkSplit.USIZE_MAX && Legal(Init(total, concurrency), evs)
    requires i < |Exec(Init(total, concurrency), evs).workers|
    ensures var s := Exec(Init(total, concurrency), evs);
      && (s.workers[i].pc.Done? ==> s.captured)
      && (s.main.Returned? && s.main.r.Ok? ==> s.captured && s.main.r.ids == Ids(0, total))
  {
    InitOk(total, concurrency);
    RunKeeps(Init(total, concurrency), total, evs);
    var s := Exec(Init(total, concurrency), evs);
    assert WorkerOk(s.g, s.f, i, s.workers[i]);
  }

  // ---------------------------------------------------------------- when a run gets stuck

  predicate IsSpurious(ev: Event) { ev.Spurious? || ev.SpuriousMain? }

  /** Nothing can happen any more, spurious wakeups aside. */
  ghost predicate Quiescent(s: Sys) {
    forall ev :: Enabled(s, ev) ==> IsSpurious(ev)
  }

  ghost predicate OpLost(s: Sys) {
    exists i :: 0 <= i < |s.workers| && s.workers[i].pc == Gone(OpFailed)
  }

  lemma QuietWorker(s: Sys, i: nat)
    requires Quiescent(s) && i < |s.workers|
    ensures var w := s.workers[i];
      Ended(w) || (w.pc.Parked? && i in s.g.asleep) || (w.pc.Holding? && i in s.f.asleep)
  {
    assert !Enabled(s, Prepared(i, true)) && !Enabled(s, RecordFailure(i)) && !Enabled(s, Arrive(i));
    assert !Enabled(s, Recheck(i)) && !Enabled(s, ReadOrigin(i)) && !Enabled(s, Operate(i, true));
    assert !Enabled(s, Report(i)) && !Enabled(s, RecheckFinish(i));
  }

  lemma QuietGathering(s: Sys, total: nat)
    requires Inv(s, total) && Quiescent(s)
    ensures !s.main.Gathering?
  {
    if s.main.Gathering? {
      assert !Enabled(s, MainGate(true));
      var i := SumByShort(Arrived, s.workers);
      assert WorkerOk(s.g, s.f, i, s.workers[i]);
      QuietWorker(s, i);
    }
  }

  lemma QuietJoining(s: Sys, total: nat)
    requires Inv(s, total) && Quiescent(s)
    ensures !s.main.Joining?
  {
    if s.main.Joining? {
      assert !Enabled(s, MainJoin);
      assert WorkerOk(s.g, s.f, s.main.next, s.workers[s.main.next]);
      QuietWorker(s, s.main.next);
    }
  }

  lemma QuietWatching(s: Sys, total: nat)
    requires Inv(s, total) && Quiescent(s) && s.main.Watching?
    ensures OpLost(s)
  {
    assert !Enabled(s, MainWatch(true));
    var i := SumByShort(Finished, s.workers);
    assert WorkerOk(s.g, s.f, i, s.workers[i]);
    QuietWorker(s, i);
    UnfinishedIsLost(s.g, s.f, i, s.workers[i]);
  }

  /** After the start, a worker that neither finished nor can move left through a failed operation. */
  lemma UnfinishedIsLost(g: StartGate, f: FinishGate, i: nat, w: Worker)
    requires WorkerOk(g, f, i, w) && g.start && !g.failure && Finished(w) == 0
    requires Ended(w) || (w.pc.Parked? && i in g.asleep) || (w.pc.Holding? && i in f.asleep)
    ensures w.pc == Gone(OpFailed)
  {
  }

  /** A worker that leaves through a failed operation never reports, so main waits for ever. */
  lemma LostOperationBlocksMain(s: Sys, total: nat)
    requires Inv(s, total) && OpLost(s)
    ensures s.main.Watching? && s.f.finished < |s.workers|
  {
    var i :| 0 <= i < |s.workers| && s.workers[i].pc == Gone(OpFailed);
    assert WorkerOk(s.g, s.f, i, s.workers[i]);
    SumByFull(Finished, s.workers);
    assert Finished(s.workers[i]) == 0;
  }

  // What the environment may answer with a failure: an operation, a prepare, main's first capture.

  predicate FailedOperation(ev: Event) { ev.Operate? && !ev.ok }
  predicate FailedPrepare(ev: Event) { ev.Prepared? && !ev.ok }
  predicate FailedFirstCapture(ev: Event) { ev == MainGate(false) }
  predicate FailedLastCapture(ev: Event) { ev == MainWatch(false) }

  ghost predicate Occurs(p: Event -> bool, evs: seq<Event>) {
    exists n :: 0 <= n < |evs| && p(evs[n])
  }

  lemma OccursCons(p: Event -> bool, evs: seq<Event>)
    requires evs != []
    ensures Occurs(p, evs) <==> p(evs[0]) || Occurs(p, evs[1..])
  {
    if Occurs(p, evs) && !p(evs[0]) {
      var n :| 0 <= n < |evs| && p(evs[n]);
      assert evs[1..][n - 1] == evs[n];
    }
    if Occurs(p, evs[1..]) {
      var n :| 0 <= n < |evs[1..]| && p(evs[1..][n]);
      assert evs[n + 1] == evs[1..][n];
    }
  }

  /** Some prepare has failed, recorded or about to be. */
  ghost predicate PrepareLost(s: Sys) {
    s.g.failure || exists i :: 0 <= i < |s.workers| && s.workers[i].pc.Failing?
  }

  predicate GaveUp(s: Sys) { s.main == Returned(Err(CaptureBefore)) }
  predicate LostUsage(s: Sys) { s.main == Returned(Err(CaptureAfter)) }

  predicate AtStart(ev: Event) { ev.Prepared? || ev.RecordFailure? || ev.Arrive? || ev.Recheck? }

  /** Steps of main touch no worker; a worker's steps touch only itself. */
  lemma StepWorkers(s: Sys, ev: Event)
    requires Enabled(s, ev)
    ensures OfMain(ev) ==> Step(s, ev).workers == s.workers
    ensures !OfMain(ev) ==> ev.i < |s.workers| && |Step(s, ev).workers| == |s.workers|
    ensures !OfMain(ev) ==> Step(s, ev).workers == s.workers[ev.i := Step(s, ev).workers[ev.i]]
  {
  }

  lemma MoverAtStart(s: Sys, ev: Event)
    requires Enabled(s, ev) && AtStart(ev)
    ensures Step(s, ev).workers[ev.i].pc.Failing? <==> FailedPrepare(ev)
    ensures Step(s, ev).workers[ev.i].pc != Gone(OpFailed)
  {
  }

  lemma MoverAfterStart(s: Sys, ev: Event)
    requires Enabled(s, ev) && !AtStart(ev) && !OfMain(ev)
    ensures !Step(s, ev).workers[ev.i].pc.Failing?
    ensures Step(s, ev).workers[ev.i].pc == Gone(OpFailed) <==> FailedOperation(ev)
  {
  }

  /** What a step can do to worker i, as far as failures go. */
  lemma FailureSteps(s: Sys, ev: Event, i: nat)
    requires Enabled(s, ev) && i < |s.workers|
    ensures var t := Step(s, ev);
      && |t.workers| == |s.workers|
      && (t.workers[i].pc == Gone(OpFailed) <==> s.workers[i].pc == Gone(OpFailed) || ev == Operate(i, false))
      && (t.workers[i].pc.Failing? <==>
            (s.workers[i].pc.Failing? && ev != RecordFailure(i)) || ev == Prepared(i, false))
  {
    StepWorkers(s, ev);
    if AtStart(ev) { MoverAtStart(s, ev); } else if !OfMain(ev) { MoverAfterStart(s, ev); }
  }

  lemma FailureRecorded(s: Sys, ev: Event)
    requires Enabled(s, ev)
    ensures Step(s, ev).g.failure <==> s.g.failure || ev.RecordFailure?
  {
  }

  lemma OpLostStep(s: Sys, ev: Event)
    requires Enabled(s, ev)
    ensures OpLost(Step(s, ev)) <==> OpLost(s) || FailedOperation(ev)
  {
    StepWorkers(s, ev);
    forall i | 0 <= i < |s.workers|
      ensures Step(s, ev).workers[i].pc == Gone(OpFailed) <==>
        s.workers[i].pc == Gone(OpFailed) || ev == Operate(i, false)
    {
      FailureSteps(s, ev, i);
    }
    if FailedOperation(ev) { assert ev == Operate(ev.i, false); }
  }

  lemma PrepareLostStep(s: Sys, ev: Event)
    requires Enabled(s, ev)
    ensures PrepareLost(Step(s, ev)) <==> PrepareLost(s) || FailedPrepare(ev)
  {
    StepWorkers(s, ev);
    FailureRecorded(s, ev);
    forall i | 0 <= i < |s.workers|
      ensures Step(s, ev).workers[i].pc.Failing? <==>
        (s.workers[i].pc.Failing? && ev != RecordFailure(i)) || ev == Prepared(i, false)
    {
      FailureSteps(s, ev, i);
    }
    if FailedPrepare(ev) { assert ev == Prepared(ev.i, false); }
  }

  lemma GaveUpStep(s: Sys, ev: Event)
    requires Enabled(s, ev)
    ensures GaveUp(Step(s, ev)) <==> GaveUp(s) || FailedFirstCapture(ev)
  {
  }

  lemma LostUsageStep(s: Sys, ev: Event)
    requires Enabled(s, ev)
    ensures LostUsage(Step(s, ev)) <==> LostUsage(s) || FailedLastCapture(ev)
  {
  }

  /** The final state remembers exactly which kinds of failure the environment answered with. */
  lemma {:induction false} RunRemembers(s: Sys, evs: seq<Event>)
    requires Legal(s, evs)
    ensures OpLost(Exec(s, evs)) <==> OpLost(s) || Occurs(FailedOperation, evs)
    ensures PrepareLost(Exec(s, evs)) <==> PrepareLost(s) || Occurs(FailedPrepare, evs)
    ensures GaveUp(Exec(s, evs)) <==> GaveUp(s) || Occurs(FailedFirstCapture, evs)
    ensures LostUsage(Exec(s, evs)) <==> LostUsage(s) || Occurs(FailedLastCapture, evs)
    decreases |evs|
  {
    if evs != [] {
      OpLostStep(s, evs[0]);
      PrepareLostStep(s, evs[0]);
      GaveUpStep(s, evs[0]);
      LostUsageStep(s, evs[0]);
      RunRemembers(Step(s, evs[0]), evs[1..]);
      OccursCons(FailedOperation, evs);
      OccursCons(FailedPrepare, evs);
      OccursCons(FailedFirstCapture, evs);
      OccursCons(FailedLastCapture, evs);
    }
  }

  lemma QuietMain(s: Sys, total: nat)
    requires Inv(s, total) && Quiescent(s)
    ensures s.main.Returned? <==> !OpLost(s)
  {
    QuietGathering(s, total);
    QuietJoining(s, total);
    if s.main.Watching? { QuietWatching(s, total); }
    if OpLost(s) { LostOperationBlocksMain(s, total); }
  }

  lemma QuietRecorded(s: Sys)
    requires Quiescent(s)
    ensures PrepareLost(s) <==> s.g.failure
  {
    forall i | 0 <= i < |s.workers| ensures !s.workers[i].pc.Failing? {
      QuietWorker(s, i);
    }
  }

  /** Once main has returned and nothing moves, a worker is left behind exactly when main gave up
      before opening the gate and no failed prepare has woken the workers. */
  lemma QuietLeftBehind(s: Sys, total: nat, i: nat)
    requires MainOk(s, total) && GatesOk(s) && Quiescent(s) && s.main.Returned? && i < |s.workers|
    requires WorkerOk(s.g, s.f, i, s.workers[i])
    ensures !Ended(s.workers[i]) <==> GaveUp(s) && !PrepareLost(s)
  {
    QuietRecorded(s);
    QuietWorker(s, i);
  }

  /** Where a run that can do nothing more has come to rest, by what the environment answered. Main
      has returned exactly when no operation failed. Then a worker has returned too exactly when
      main's first reading of its resource usage did not fail, or some prepare failed. */
  lemma RunCompletesIff(total: nat, concurrency: nat, evs: seq<Event>)
    requires concurrency > 0 && total <= WorkSplit.USIZE_MAX && Legal(Init(total, concurrency), evs)
    requires Quiescent(Exec(Init(total, concurrency), evs))
    ensures var s := Exec(Init(total, concurrency), evs);
      && (s.main.Returned? <==> !Occurs(FailedOperation, evs))
      && (s.main.Returned? ==> forall i :: 0 <= i < |s.workers| ==>
            (Ended(s.workers[i]) <==> !Occurs(FailedFirstCapture, evs) || Occurs(FailedPrepare, evs)))
  {
    InitOk(total, concurrency);
    RunKeeps(Init(total, concurrency), total, evs);
    RunRemembers(Init(total, concurrency), evs);
    var s := Exec(Init(total, concurrency), evs);
    QuietMain(s, total);
    forall i | 0 <= i < |s.workers| && s.main.Returned?
      ensures Ended(s.workers[i]) <==> !Occurs(FailedFirstCapture, evs) || Occurs(FailedPrepare, evs)
    {
      assert WorkerOk(s.g, s.f, i, s.workers[i]);
      QuietLeftBehind(s, total, i);
    }
  }

  /** A run that has started has lost no prepare, and one that has recorded a failure never starts. */
  lemma StartedMeansPrepared(s: Sys, total: nat)
    requires Inv(s, total) && s.g.start
    ensures !PrepareLost(s)
  {
    forall i | 0 <= i < |s.workers| ensures !s.workers[i].pc.Failing? {
      assert WorkerOk(s.g, s.f, i, s.workers[i]);
    }
  }

  lemma ResultMeans(s: Sys, total: nat)
    requires Inv(s, total) && s.main.Returned?
    ensures s.main.r.Ok? ==> s.main.r == Ok(Ids(0, total)) && !PrepareLost(s)
    ensures s.main.r == Err(WorkerError) ==> PrepareLost(s)
    ensures s.main.r == Err(CaptureAfter) ==> !PrepareLost(s)
    ensures s.main.r != Err(NotStarted)
  {
    if s.g.start { StartedMeansPrepared(s, total); }
  }

  /** What a run returns, by what the environment answered: the measurements of all instances in
      order exactly when nothing failed, and otherwise the error of what did. */
  lemma RunResultIff(total: nat, concurrency: nat, evs: seq<Event>)
    requires concurrency > 0 && total <= WorkSplit.USIZE_MAX && Legal(Init(total, concurrency), evs)
    requires Quiescent(Exec(Init(total, concurrency), evs))
    ensures var main := Exec(Init(total, concurrency), evs).main;
      && (main == Returned(Ok(Ids(0, total))) <==>
            !Occurs(FailedOperation, evs) && !Occurs(FailedPrepare, evs)
            && !Occurs(FailedFirstCapture, evs) && !Occurs(FailedLastCapture, evs))
      && (main == Returned(Err(CaptureBefore)) <==> Occurs(FailedFirstCapture, evs))
      && (main == Returned(Err(CaptureAfter)) <==> Occurs(FailedLastCapture, evs))
      && (main == Returned(Err(WorkerError)) <==>
            Occurs(FailedPrepare, evs) && !Occurs(FailedFirstCapture, evs))
      && (main.Watching? <==> Occurs(FailedOperation, evs))
  {
    var init := Init(total, concurrency);
    InitOk(total, concurrency);
    RunKeeps(init, total, evs);
    RunRemembers(init, evs);
    var s := Exec(init, evs);
    QuietMain(s, total);
    QuietGathering(s, total);
    QuietJoining(s, total);
    if s.main.Returned? {
      ResultMeans(s, total);
    } else {
      StartedMeansPrepared(s, total);
    }
  }

  function Lone(pc: Pc): seq<Worker> { [Worker(pc, 0, 1, [])] }

  const OPEN := StartGate(1, true, false, {})
  const UNFINISHED := FinishGate(0, false, {})

  /** The blocked run exists: one worker, whose only operation fails. */
  lemma BlockedRun() returns (evs: seq<Event>)
    ensures Legal(Init(1, 1), evs)
    ensures var s := Exec(Init(1, 1), evs);
      Quiescent(s) && OpLost(s) && s.main.Watching?
  {
    var s4 := Sys(Lone(Cleared), Watching, false, OPEN, UNFINISHED, true, false);
    evs := BlockedEnd(s4);
    var s2 := Sys(Lone(Parked), Gathering, false, StartGate(1, false, false, {0}), UNFINISHED, false, false);
    evs := BlockedStart(s2, s4, evs);
    InitOne();
    evs := BlockedArrival(Init(1, 1), s2, evs);
  }

  /** A worker left behind: it arrives, main cannot read its resource usage and returns, and the
      worker sleeps for ever. */
  lemma StrandedRun() returns (evs: seq<Event>)
    ensures Legal(Init(1, 1), evs)
    ensures var s := Exec(Init(1, 1), evs);
      Quiescent(s) && s.main == Returned(Err(CaptureBefore)) && |s.workers| == 1 && s.workers[0].pc.Parked?
  {
    var s2 := Sys(Lone(Parked), Gathering, false, StartGate(1, false, false, {0}), UNFINISHED, false, false);
    assert Step(s2, MainGate(false)) == s2.(main := Returned(Err(CaptureBefore)));
    evs := LegalCons(s2, MainGate(false), []);
    InitOne();
    evs := BlockedArrival(Init(1, 1), s2, evs);
  }

  lemma InitOne()
    ensures Init(1, 1) ==
      Sys(Lone(Preparing), Gathering, false, StartGate(0, false, false, {}), UNFINISHED, false, false)
  {
    assert Init(1, 1).workers == Lone(Preparing);
  }

  lemma BlockedArrival(s0: Sys, s2: Sys, tail: seq<Event>) returns (evs: seq<Event>)
    requires s0 == Sys(Lone(Preparing), Gathering, false, StartGate(0, false, false, {}), UNFINISHED, false, false)
    requires s2 == Sys(Lone(Parked), Gathering, false, StartGate(1, false, false, {0}), UNFINISHED, false, false)
    requires Legal(s2, tail)
    ensures Legal(s0, evs) && Exec(s0, evs) == Exec(s2, tail)
  {
    var s1 := s0.(workers := Lone(Arriving));
    assert Step(s0, Prepared(0, true)) == s1;
    assert Step(s1, Arrive(0)) == s2;
    evs := LegalCons(s1, Arrive(0), tail);
    evs := LegalCons(s0, Prepared(0, true), evs);
  }

  lemma BlockedStart(s2: Sys, s4: Sys, tail: seq<Event>) returns (evs: seq<Event>)
    requires s2 == Sys(Lone(Parked), Gathering, false, StartGate(1, false, false, {0}), UNFINISHED, false, false)
    requires s4 == Sys(Lone(Cleared), Watching, false, OPEN, UNFINISHED, true, false) && Legal(s4, tail)
    ensures Legal(s2, evs) && Exec(s2, evs) == Exec(s4, tail)
  {
    var s3 := s4.(workers := Lone(Parked));
    assert Step(s2, MainGate(true)) == s3;
    assert Step(s3, Recheck(0)) == s4;
    evs := LegalCons(s3, Recheck(0), tail);
    evs := LegalCons(s2, MainGate(true), evs);
  }

  lemma BlockedEnd(s4: Sys) returns (evs: seq<Event>)
    requires s4 == Sys(Lone(Cleared), Watching, false, OPEN, UNFINISHED, true, false)
    ensures Legal(s4, evs)
    ensures Quiescent(Exec(s4, evs)) && OpLost(Exec(s4, evs)) && Exec(s4, evs).main.Watching?
  {
    var s5 := s4.(workers := Lone(Running));
    assert Step(s4, ReadOrigin(0)) == s5;
    var s6 := s4.(workers := Lone(Gone(OpFailed)));
    assert Step(s5, Operate(0, false)) == s6;
    var s7 := s6.(mainAsleep := true);
    assert Step(s6, MainWatch(true)) == s7;
    evs := LegalCons(s6, MainWatch(true), []);
    evs := LegalCons(s5, Operate(0, false), evs);
    evs := LegalCons(s4, ReadOrigin(0), evs);
    assert s7.workers[0].pc == Gone(OpFailed);
  }

  lemma LegalCons(s: Sys, ev: Event, tail: seq<Event>) returns (evs: seq<Event>)
    requires Enabled(s, ev) && Legal(Step(s, ev), tail)
    ensures evs == [ev] + tail && Legal(s, evs) && Exec(s, evs) == Exec(Step(s, ev), tail)
  {
    evs := [ev] + tail;
    assert evs[1..] == tail;
  }

  // ---------------------------------------------------------------- runs end

  function WorkerRank(w: Worker): nat {
    var left := if |w.results| < w.count then w.count - |w.results| else 0;
    match w.pc
    case Preparing => 6 + left
    case Arriving => 5 + left
    case Parked => 4 + left
    case Cleared => 3 + left
    case Running => 2 + left
    case Holding => 1
    case Failing => 1
    case Done => 0
    case Gone(_) => 0
  }

  function MainRank(s: Sys): nat {
    match s.main
    case Gathering => |s.workers| + 3
    case Watching => |s.workers| + 2
    case Joining(_, j, _) => if j < |s.workers| then |s.workers| - j + 1 else 1
    case Returned(_) => 0
  }

  ghost function Rank(s: Sys): nat { SumBy(WorkerRank, s.workers) + MainRank(s) }

  function Asleep(s: Sys): nat { |s.g.asleep| + |s.f.asleep| + if s.mainAsleep then 1 else 0 }

  ghost predicate Progress(s: Sys, t: Sys) {
    |t.workers| == |s.workers| && (Rank(t) < Rank(s) || (Rank(t) == Rank(s) && Asleep(t) == Asleep(s) + 1))
  }

  lemma MainProgress(s: Sys, ev: Event)
    requires Enabled(s, ev) && (ev.MainGate? || ev.MainWatch? || ev.MainJoin?)
    ensures Progress(s, Step(s, ev))
  {
  }

  lemma RankMove(s: Sys, t: Sys, i: nat)
    requires i < |s.workers| == |t.workers| && t.workers == s.workers[i := t.workers[i]] && t.main == s.main
    ensures Rank(t) == Rank(s) - WorkerRank(s.workers[i]) + WorkerRank(t.workers[i])
  {
    SumByUpdate(WorkerRank, s.workers, i, t.workers[i]);
  }

  lemma EarlyProgress(s: Sys, ev: Event)
    requires Enabled(s, ev) && (ev.Prepared? || ev.RecordFailure? || ev.ReadOrigin? || ev.Operate?)
    ensures Progress(s, Step(s, ev))
  {
    RankMove(s, Step(s, ev), ev.i);
  }

  lemma ArriveProgress(s: Sys, i: nat)
    requires Enabled(s, Arrive(i))
    ensures Progress(s, Step(s, Arrive(i)))
  {
    var t := Step(s, Arrive(i));
    assert t.workers == s.workers[i := t.workers[i]] && t.main == s.main;
    assert WorkerRank(t.workers[i]) < WorkerRank(s.workers[i]);
    RankMove(s, t, i);
  }

  lemma RecheckProgress(s: Sys, i: nat)
    requires Enabled(s, Recheck(i))
    ensures Progress(s, Step(s, Recheck(i)))
  {
    var t := Step(s, Recheck(i));
    RankMove(s, t, i);
    if !s.g.start && !s.g.failure {
      assert t.workers[i] == s.workers[i];
      assert |s.g.asleep + {i}| == |s.g.asleep| + 1;
    }
  }

  lemma FinishProgress(s: Sys, ev: Event)
    requires Enabled(s, ev) && (ev.Report? || ev.RecheckFinish?)
    ensures Progress(s, Step(s, ev))
  {
    RankMove(s, Step(s, ev), ev.i);
  }

  /** Every step that is not a spurious wakeup moves somebody forward for good, or puts somebody to
      sleep while waking nobody. */
  lemma StepProgress(s: Sys, ev: Event)
    requires Enabled(s, ev) && !IsSpurious(ev)
    ensures Progress(s, Step(s, ev))
  {
    if ev.MainGate? || ev.MainWatch? || ev.MainJoin? {
      MainProgress(s, ev);
    } else if ev.Arrive? {
      ArriveProgress(s, ev.i);
    } else if ev.Recheck? {
      RecheckProgress(s, ev.i);
    } else if ev.Report? || ev.RecheckFinish? {
      FinishProgress(s, ev);
    } else {
      EarlyProgress(s, ev);
    }
  }

  lemma {:induction false} BoundedSet(a: set<nat>, n: nat)
    requires forall x :: x in a ==> x < n
    ensures |a| <= n
  {
    if n == 0 {
      assert a == {};
    } else {
      BoundedSet(a - {n - 1}, n - 1);
      assert a <= (a - {n - 1}) + {n - 1};
      assert n - 1 in a ==> a == (a - {n - 1}) + {n - 1};
      assert n - 1 !in a ==> a == a - {n - 1};
    }
  }

  lemma SleepersFit(s: Sys, total: nat)
    requires Inv(s, total)
    ensures Asleep(s) <= 2 * |s.workers| + 1
  {
    BoundedSet(s.g.asleep, |s.workers|);
    BoundedSet(s.f.asleep, |s.workers|);
  }

  /** Work left: no run without spurious wakeups is longer than this. */
  ghost function Fuel(s: Sys): nat
    requires Asleep(s) <= 2 * |s.workers| + 1
  {
    (2 * |s.workers| + 2) * Rank(s) + (2 * |s.workers| + 1 - Asleep(s))
  }

  lemma ScaledDrop(unit: nat, r: nat, r': nat, d: nat, d': nat)
    requires d' < unit && (r' < r || (r' == r && d' < d))
    ensures unit * r' + d' < unit * r + d
  {
    if r' < r {
      Alignment.ScaleMonotone(unit, r' + 1, r);
      assert unit * (r' + 1) == unit * r' + unit;
    }
  }

  lemma FuelDrops(s: Sys, t: Sys)
    requires Progress(s, t)
    requires Asleep(s) <= 2 * |s.workers| + 1 && Asleep(t) <= 2 * |t.workers| + 1
    ensures Fuel(t) < Fuel(s)
  {
    var most := 2 * |s.workers| + 1;
    ScaledDrop(most + 1, Rank(s), Rank(t), most - Asleep(s), most - Asleep(t));
  }

  /** Runs end: spurious wakeups aside, no run from a reachable state outlasts its fuel. */
  lemma {:induction false} RunsAreFinite(s: Sys, total: nat, evs: seq<Event>, fuel: nat)
    requires Inv(s, total) && Legal(s, evs) && forall n :: 0 <= n < |evs| ==> !IsSpurious(evs[n])
    requires Asleep(s) <= 2 * |s.workers| + 1 && fuel == Fuel(s)
    ensures |evs| <= fuel
    decreases |evs|
  {
    if evs != [] {
      StepKeeps(s, total, evs[0]);
      StepProgress(s, evs[0]);
      SleepersFit(Step(s, evs[0]), total);
      FuelDrops(s, Step(s, evs[0]));
      RunsAreFinite(Step(s, evs[0]), total, evs[1..], Fuel(Step(s, evs[0])));
    }
  }
}
