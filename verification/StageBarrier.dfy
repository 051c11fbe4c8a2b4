/** The step-by-step netns benchmark: batches of threads that meet at a barrier after every stage. */
module StageBarrier {
  import opened Common

  /** Where a thread stands within its current stage. */
  datatype Phase = Before | Ready | Waiting(gen: nat)

  /** `arrivals` counts the thread's calls to `barrier.wait`. */
  datatype Thread = Thread(stage: nat, phase: Phase, failed: bool, results: seq<nat>, arrivals: nat)

  /** A batch with its barrier: how many threads wait, and how often it has opened. */
  datatype Batch = Batch(threads: seq<Thread>, count: nat, generation: nat)

  datatype Event = Work(i: nat) | Wait(i: nat) | Resume(i: nat)

  /** Says of each thread and stage whether the stage's command succeeds. */
  type Outcomes = (nat, nat) -> bool

  predicate Enabled(stages: nat, b: Batch, ev: Event) {
    ev.i < |b.threads| &&
    match ev
    case Work(i) => b.threads[i].phase.Before? && b.threads[i].stage < stages
    case Wait(i) => b.threads[i].phase.Ready?
    case Resume(i) => b.threads[i].phase.Waiting? && b.threads[i].phase.gen != b.generation
  }

  function AfterWork(t: Thread, ok: bool): Thread {
    if t.failed then t.(phase := Ready)
    else if ok then t.(phase := Ready, results := t.results + [t.stage])
    else t.(phase := Ready, failed := true)
  }

  function NextStage(t: Thread): Thread {
    t.(stage := t.stage + 1, phase := Before)
  }

  function Step(stages: nat, oks: Outcomes, b: Batch, ev: Event): Batch
    requires Enabled(stages, b, ev)
  {
    var t := b.threads[ev.i];
    match ev
    case Work(i) => b.(threads := b.threads[i := AfterWork(t, oks(i, t.stage))])
    case Wait(i) =>
      var t' := t.(arrivals := t.arrivals + 1);
      if b.count + 1 < |b.threads| then
        b.(threads := b.threads[i := t'.(phase := Waiting(b.generation))], count := b.count + 1)
      else
        Batch(b.threads[i := NextStage(t')], 0, b.generation + 1)
    case Resume(i) => b.(threads := b.threads[i := NextStage(t)])
  }

  function Init(n: nat): Batch {
    Batch(seq(n, _ => Thread(0, Before, false, [], 0)), 0, 0)
  }

  predicate Legal(stages: nat, oks: Outcomes, b: Batch, evs: seq<Event>)
    decreases |evs|
  {
    evs == [] || (Enabled(stages, b, evs[0]) && Legal(stages, oks, Step(stages, oks, b, evs[0]), evs[1..]))
  }

  function Exec(stages: nat, oks: Outcomes, b: Batch, evs: seq<Event>): Batch
    requires Legal(stages, oks, b, evs)
    decreases |evs|
  {
    if evs == [] then b else Exec(stages, oks, Step(stages, oks, b, evs[0]), evs[1..])
  }

  // ---------------------------------------------------------------- invariant

  /** Stages a thread has run or skipped. */
  function Worked(t: Thread): nat {
    if t.phase.Before? then t.stage else t.stage + 1
  }

  /** Stages before the first failure of thread i, at most n. */
  function Streak(oks: Outcomes, i: nat, n: nat): (k: nat)
    ensures k <= n && (forall j :: 0 <= j < k ==> oks(i, j)) && (k < n ==> !oks(i, k))
  {
    if n == 0 then 0 else
      var k := Streak(oks, i, n - 1);
      if k == n - 1 && oks(i, n - 1) then n else k
  }

  function Upto(n: nat): seq<nat> { seq(n, i requires 0 <= i => i) }

  ghost predicate ThreadOk(stages: nat, oks: Outcomes, b: Batch, i: nat, t: Thread) {
    && Worked(t) <= stages
    && t.results == Upto(Streak(oks, i, Worked(t)))
    && (t.failed <==> Streak(oks, i, Worked(t)) < Worked(t))
    && match t.phase
       case Before => t.stage == b.generation && t.arrivals == t.stage
       case Ready => t.stage == b.generation && t.arrivals == t.stage
       case Waiting(g) => g == t.stage <= b.generation <= t.stage + 1 && t.arrivals == t.stage + 1
  }

  function Blocked(gen: nat): Thread -> nat {
    (t: Thread) => if t.phase == Waiting(gen) then 1 else 0
  }

  ghost predicate Inv(stages: nat, oks: Outcomes, b: Batch) {
    && (forall i :: 0 <= i < |b.threads| ==> ThreadOk(stages, oks, b, i, b.threads[i]))
    && b.count == SumBy(Blocked(b.generation), b.threads)
    && (|b.threads| > 0 ==> b.count < |b.threads|)
  }

  lemma UptoGrows(n: nat)
    ensures Upto(n) + [n] == Upto(n + 1)
  {
  }

  lemma WorkKeeps(stages: nat, oks: Outcomes, b: Batch, i: nat)
    requires Inv(stages, oks, b) && Enabled(stages, b, Work(i))
    ensures Inv(stages, oks, Step(stages, oks, b, Work(i)))
  {
    var t := b.threads[i];
    assert ThreadOk(stages, oks, b, i, t);
    UptoGrows(t.stage);
    SumByUpdate(Blocked(b.generation), b.threads, i, AfterWork(t, oks(i, t.stage)));
  }

  lemma ResumeKeeps(stages: nat, oks: Outcomes, b: Batch, i: nat)
    requires Inv(stages, oks, b) && Enabled(stages, b, Resume(i))
    ensures Inv(stages, oks, Step(stages, oks, b, Resume(i)))
  {
    assert ThreadOk(stages, oks, b, i, b.threads[i]);
    SumByUpdate(Blocked(b.generation), b.threads, i, NextStage(b.threads[i]));
  }

  /** When the last thread arrives, every other one is blocked in this very generation. */
  lemma OthersBlocked(b: Batch, i: nat, j: nat)
    requires i < |b.threads| && j < |b.threads| && i != j && !b.threads[i].phase.Waiting?
    requires b.count == SumBy(Blocked(b.generation), b.threads) && b.count + 1 >= |b.threads|
    ensures b.threads[j].phase == Waiting(b.generation)
  {
    var w := Blocked(b.generation);
    var full := b.threads[i := Thread(0, Waiting(b.generation), false, [], 0)];
    SumByUpdate(w, b.threads, i, full[i]);
    SumByFull(w, full);
    assert w(full[j]) == 1;
  }

  lemma WaitOpens(stages: nat, oks: Outcomes, b: Batch, i: nat)
    requires Inv(stages, oks, b) && Enabled(stages, b, Wait(i)) && b.count + 1 >= |b.threads|
    ensures Inv(stages, oks, Step(stages, oks, b, Wait(i)))
  {
    var c := Step(stages, oks, b, Wait(i));
    forall j | 0 <= j < |c.threads| ensures ThreadOk(stages, oks, c, j, c.threads[j]) {
      assert ThreadOk(stages, oks, b, j, b.threads[j]);
      if i != j { OthersBlocked(b, i, j); }
    }
    SumByZero(Blocked(c.generation), c.threads);
  }

  lemma WaitBlocks(stages: nat, oks: Outcomes, b: Batch, i: nat)
    requires Inv(stages, oks, b) && Enabled(stages, b, Wait(i)) && b.count + 1 < |b.threads|
    ensures Inv(stages, oks, Step(stages, oks, b, Wait(i)))
  {
    var c := Step(stages, oks, b, Wait(i));
    assert ThreadOk(stages, oks, b, i, b.threads[i]);
    SumByUpdate(Blocked(b.generation), b.threads, i, c.threads[i]);
  }

  lemma StepKeeps(stages: nat, oks: Outcomes, b: Batch, ev: Event)
    requires Inv(stages, oks, b) && Enabled(stages, b, ev)
    ensures Inv(stages, oks, Step(stages, oks, b, ev)) && |Step(stages, oks, b, ev).threads| == |b.threads|
  {
    match ev {
      case Work(i) => WorkKeeps(stages, oks, b, i);
      case Wait(i) =>
        if b.count + 1 < |b.threads| { WaitBlocks(stages, oks, b, i); } else { WaitOpens(stages, oks, b, i); }
      case Resume(i) => ResumeKeeps(stages, oks, b, i);
    }
  }

  lemma {:induction false} RunKeeps(stages: nat, oks: Outcomes, b: Batch, evs: seq<Event>)
    requires Inv(stages, oks, b) && Legal(stages, oks, b, evs)
    ensures Inv(stages, oks, Exec(stages, oks, b, evs))
    ensures |Exec(stages, oks, b, evs).threads| == |b.threads|
    decreases |evs|
  {
    if evs != [] {
      StepKeeps(stages, oks, b, evs[0]);
      RunKeeps(stages, oks, Step(stages, oks, b, evs[0]), evs[1..]);
    }
  }

  lemma InitOk(stages: nat, oks: Outcomes, n: nat)
    ensures Inv(stages, oks, Init(n))
  {
    SumByZero(Blocked(0), Init(n).threads);
  }

  // ---------------------------------------------------------------- what every batch guarantees

  /** Lockstep: nobody is in stage k + 1 before everybody has run or skipped stage k, and every
      thread has called the barrier exactly once per stage it has left behind. */
  lemma Lockstep(stages: nat, oks: Outcomes, n: nat, evs: seq<Event>, i: nat, j: nat)
    requires Legal(stages, oks, Init(n), evs) && i < n && j < n
    ensures var b := Exec(stages, oks, Init(n), evs);
      && |b.threads| == n
      && b.threads[i].stage <= Worked(b.threads[j])
      && b.threads[i].arrivals == b.threads[i].stage + if b.threads[i].phase.Waiting? then 1 else 0
  {
    InitOk(stages, oks, n);
    RunKeeps(stages, oks, Init(n), evs);
    var b := Exec(stages, oks, Init(n), evs);
    assert ThreadOk(stages, oks, b, i, b.threads[i]) && ThreadOk(stages, oks, b, j, b.threads[j]);
  }

  /** No deadlock, whatever fails: while some thread is not through all stages, somebody can move. */
  lemma NoDeadlock(stages: nat, oks: Outcomes, n: nat, evs: seq<Event>, i: nat) returns (next: Event)
    requires Legal(stages, oks, Init(n), evs) && i < n
    requires var b := Exec(stages, oks, Init(n), evs); |b.threads| == n && b.threads[i].stage < stages
    ensures Enabled(stages, Exec(stages, oks, Init(n), evs), next)
  {
    InitOk(stages, oks, n);
    RunKeeps(stages, oks, Init(n), evs);
    var b := Exec(stages, oks, Init(n), evs);
    assert ThreadOk(stages, oks, b, i, b.threads[i]);
    match b.threads[i].phase {
      case Before => next := Work(i);
      case Ready => next := Wait(i);
      case Waiting(g) =>
        if g != b.generation { return Resume(i); }
        var j := SumByShort(Blocked(b.generation), b.threads);
        assert ThreadOk(stages, oks, b, j, b.threads[j]);
        match b.threads[j].phase {
          case Before => next := Work(j);
          case Ready => next := Wait(j);
          case Waiting(_) => next := Resume(j);
        }
    }
  }

  /** What a thread that is through has to show: an error exactly when one of its stages failed,
      otherwise one measurement per stage, in order. */
  lemma ThreadOutcome(stages: nat, oks: Outcomes, n: nat, evs: seq<Event>, i: nat)
    requires Legal(stages, oks, Init(n), evs) && i < n
    requires var b := Exec(stages, oks, Init(n), evs); |b.threads| == n && b.threads[i].stage == stages
    ensures var t := Exec(stages, oks, Init(n), evs).threads[i];
      && (t.failed <==> exists k :: 0 <= k < stages && !oks(i, k))
      && (!t.failed ==> t.results == Upto(stages))
  {
    InitOk(stages, oks, n);
    RunKeeps(stages, oks, Init(n), evs);
    var b := Exec(stages, oks, Init(n), evs);
    assert ThreadOk(stages, oks, b, i, b.threads[i]);
  }

  function Rank(stages: nat): Thread -> nat {
    (t: Thread) =>
      if t.stage >= stages then 0
      else 3 * (stages - t.stage) - (match t.phase case Before => 0 case Ready => 1 case Waiting(_) => 2)
  }

  lemma StepRank(stages: nat, oks: Outcomes, b: Batch, ev: Event)
    requires Inv(stages, oks, b) && Enabled(stages, b, ev)
    ensures SumBy(Rank(stages), Step(stages, oks, b, ev).threads) < SumBy(Rank(stages), b.threads)
  {
    var c, i := Step(stages, oks, b, ev), ev.i;
    assert ThreadOk(stages, oks, b, i, b.threads[i]);
    SumByUpdate(Rank(stages), b.threads, i, c.threads[i]);
  }

  /** Batches end: no run takes more than three steps per thread and stage. */
  lemma {:induction false} RunsAreFinite(stages: nat, oks: Outcomes, b: Batch, evs: seq<Event>)
    requires Inv(stages, oks, b) && Legal(stages, oks, b, evs)
    ensures |evs| + SumBy(Rank(stages), Exec(stages, oks, b, evs).threads) <= SumBy(Rank(stages), b.threads)
    decreases |evs|
  {
    if evs != [] {
      StepRank(stages, oks, b, evs[0]);
      StepKeeps(stages, oks, b, evs[0]);
      RunsAreFinite(stages, oks, Step(stages, oks, b, evs[0]), evs[1..]);
    }
  }

  // ---------------------------------------------------------------- the batch loop

  /** One measurement: instance and stage. */
  datatype Row = Row(instance: nat, stage: nat)

  datatype RunResult = Ok(rows: seq<Row>) | Err(instance: nat)

  function Rows(instance: nat, stages: nat): seq<Row> {
    seq(stages, k requires 0 <= k => Row(instance, k))
  }

  /** All measurements of instances below n, instance by instance, stage by stage. */
  function Table(n: nat, stages: nat): seq<Row> {
    if n == 0 then [] else Table(n - 1, stages) + Rows(n - 1, stages)
  }

  /** The table holds every measurement of every instance exactly once. */
  lemma {:induction false} TableExactlyOnce(n: nat, stages: nat, row: Row)
    ensures multiset(Table(n, stages))[row] == if row.instance < n && row.stage < stages then 1 else 0
  {
    if n > 0 {
      TableExactlyOnce(n - 1, stages, row);
      RowsOnce(n - 1, stages, row);
    }
  }

  lemma {:induction false} RowsOnce(instance: nat, stages: nat, row: Row)
    ensures multiset(Rows(instance, stages))[row] == if row.instance == instance && row.stage < stages then 1 else 0
  {
    if stages > 0 {
      RowsOnce(instance, stages - 1, row);
      assert Rows(instance, stages) == Rows(instance, stages - 1) + [Row(instance, stages - 1)];
    }
  }

  predicate Passes(oks: Outcomes, instance: nat, stages: nat) {
    forall k :: 0 <= k < stages ==> oks(instance, k)
  }

  // ---------------------------------------------------------------- running a batch

  /** The next step of a thread, when it can take one. */
  function Move(t: Thread, i: nat): Event {
    match t.phase
    case Before => Work(i)
    case Ready => Wait(i)
    case Waiting(_) => Resume(i)
  }

  predicate CanMove(stages: nat, b: Batch, i: nat) {
    i < |b.threads| && Enabled(stages, b, Move(b.threads[i], i))
  }

  lemma {:induction false} ExecAppend(stages: nat, oks: Outcomes, b: Batch, evs: seq<Event>, ev: Event)
    requires Legal(stages, oks, b, evs) && Enabled(stages, Exec(stages, oks, b, evs), ev)
    ensures Legal(stages, oks, b, evs + [ev])
    ensures Exec(stages, oks, b, evs + [ev]) == Step(stages, oks, Exec(stages, oks, b, evs), ev)
    decreases |evs|
  {
    if evs == [] {
      assert (evs + [ev])[1..] == [];
    } else {
      ExecAppend(stages, oks, Step(stages, oks, b, evs[0]), evs[1..], ev);
      assert (evs + [ev])[1..] == evs[1..] + [ev];
    }
  }

  /** A batch that has got somewhere by a legal run. */
  ghost predicate Reached(stages: nat, oks: Outcomes, n: nat, evs: seq<Event>, b: Batch) {
    Legal(stages, oks, Init(n), evs) && b == Exec(stages, oks, Init(n), evs) && |b.threads| == n
  }

  lemma SomeoneMoves(stages: nat, oks: Outcomes, n: nat, evs: seq<Event>, b: Batch) returns (i: nat)
    requires Reached(stages, oks, n, evs, b) && exists j :: 0 <= j < n && b.threads[j].stage < stages
    ensures CanMove(stages, b, i)
  {
    var late :| 0 <= late < n && b.threads[late].stage < stages;
    var next := NoDeadlock(stages, oks, n, evs, late);
    i := next.i;
  }

  lemma MoveReaches(stages: nat, oks: Outcomes, n: nat, evs: seq<Event>, b: Batch, ev: Event)
    requires Reached(stages, oks, n, evs, b) && Enabled(stages, b, ev)
    ensures Reached(stages, oks, n, evs + [ev], Step(stages, oks, b, ev))
    ensures SumBy(Rank(stages), Step(stages, oks, b, ev).threads) < SumBy(Rank(stages), b.threads)
  {
    InitOk(stages, oks, n);
    RunKeeps(stages, oks, Init(n), evs);
    ExecAppend(stages, oks, Init(n), evs, ev);
    StepKeeps(stages, oks, b, ev);
    StepRank(stages, oks, b, ev);
  }

  lemma NoStageBeyond(stages: nat, oks: Outcomes, n: nat, evs: seq<Event>, b: Batch, i: nat)
    requires Reached(stages, oks, n, evs, b) && i < n
    ensures b.threads[i].stage <= stages
  {
    InitOk(stages, oks, n);
    RunKeeps(stages, oks, Init(n), evs);
    assert ThreadOk(stages, oks, b, i, b.threads[i]);
  }

  /** The threads of a batch, run under any schedule until all are through: some thread that can move
      moves, as long as one has a stage left. */
  method RunBatch(stages: nat, oks: Outcomes, n: nat) returns (b: Batch, ghost evs: seq<Event>)
    ensures Reached(stages, oks, n, evs, b) && forall i :: 0 <= i < n ==> b.threads[i].stage == stages
  {
    b, evs := Init(n), [];
    while exists i :: 0 <= i < |b.threads| && b.threads[i].stage < stages
      invariant Reached(stages, oks, n, evs, b)
      decreases SumBy(Rank(stages), b.threads)
    {
      ghost var someone := SomeoneMoves(stages, oks, n, evs, b);
      var i: nat :| i < |b.threads| && CanMove(stages, b, i);
      var ev := Move(b.threads[i], i);
      assert CanMove(stages, b, i);
      assert Enabled(stages, b, ev);
      MoveReaches(stages, oks, n, evs, b, ev);
      b, evs := Step(stages, oks, b, ev), evs + [ev];
    }
    forall i | 0 <= i < n ensures b.threads[i].stage == stages {
      NoStageBeyond(stages, oks, n, evs, b, i);
    }
  }

  /** The outcomes of a batch that starts at instance `first`. */
  function From(oks: Outcomes, first: nat): Outcomes { (i: nat, k: nat) => oks(first + i, k) }

  /** The measurements a thread hands back. */
  function Measured(instance: nat, results: seq<nat>): seq<Row> {
    seq(|results|, k requires 0 <= k < |results| => Row(instance, results[k]))
  }

  lemma JoinedThread(stages: nat, oks: Outcomes, first: nat, n: nat, evs: seq<Event>, tid: nat)
    requires Legal(stages, From(oks, first), Init(n), evs) && tid < n
    requires var b := Exec(stages, From(oks, first), Init(n), evs);
      |b.threads| == n && b.threads[tid].stage == stages
    ensures var t := Exec(stages, From(oks, first), Init(n), evs).threads[tid];
      && (t.failed <==> !Passes(oks, first + tid, stages))
      && (!t.failed ==> Measured(first + tid, t.results) == Rows(first + tid, stages))
  {
    ThreadOutcome(stages, From(oks, first), n, evs, tid);
    assert forall k: nat :: From(oks, first)(tid, k) == oks(first + tid, k);
    if !Passes(oks, first + tid, stages) {
      var k: nat :| k < stages && !oks(first + tid, k);
      assert !From(oks, first)(tid, k);
    }
  }

  /** `run`: batches of at most `concurrency` threads, run to their end and joined in thread order;
      the first thread that reports an error ends the run. */
  method Run(total: nat, concurrency: nat, stages: nat, oks: Outcomes) returns (r: RunResult)
    requires concurrency > 0
    ensures r.Ok? <==> forall id :: 0 <= id < total ==> Passes(oks, id, stages)
    ensures r.Ok? ==> r.rows == Table(total, stages)
    ensures r.Err? ==> r.instance < total && !Passes(oks, r.instance, stages)
                       && forall id :: 0 <= id < r.instance ==> Passes(oks, id, stages)
  {
    var all: seq<Row> := [];
    var nextSeq := 0;
    while nextSeq < total
      invariant 0 <= nextSeq <= total && all == Table(nextSeq, stages)
      invariant forall id :: 0 <= id < nextSeq ==> Passes(oks, id, stages)
    {
      var n := if concurrency < total - nextSeq then concurrency else total - nextSeq;
      var b, evs := RunBatch(stages, From(oks, nextSeq), n);
      for tid := 0 to n
        invariant all == Table(nextSeq + tid, stages)
        invariant forall id :: 0 <= id < nextSeq + tid ==> Passes(oks, id, stages)
      {
        JoinedThread(stages, oks, nextSeq, n, evs, tid);
        if b.threads[tid].failed { return Err(nextSeq + tid); }
        all := all + Measured(nextSeq + tid, b.threads[tid].results);
      }
      nextSeq := nextSeq + n;
    }
    return Ok(all);
  }
}
