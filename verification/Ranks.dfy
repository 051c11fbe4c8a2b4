/** First-touch ranks: the other half of `block_stats`, and the order they give the blocks. */
module Ranks {
  import opened Common
  import FR = FirstReads
  import opened Prefetch

  /** The row the first-read collector writes for a block. */
  function TraceRow(task: string, run: string, phase: string, b: FR.Block, blockSize: int): Row {
    Row(task, run, phase, b.drive, b.id * blockSize)
  }

  /** The block read back from a collected row is the block that was collected. */
  lemma RowRoundTrip(task: string, run: string, phase: string, b: FR.Block, blockSize: int)
    requires blockSize > 0
    ensures BlockOf(TraceRow(task, run, phase, b, blockSize), blockSize) == b.id
    ensures TraceRow(task, run, phase, b, blockSize).drive == b.drive
  {
    var q, r := (b.id * blockSize) / blockSize, (b.id * blockSize) % blockSize;
    assert b.id * blockSize == blockSize * q + r;
    QuotientUnique(blockSize, b.id, q, r);
  }

  lemma QuotientUnique(unit: int, n: int, q: int, r: int)
    requires 0 <= r < unit && n * unit == unit * q + r
    ensures q == n
  {
    var d := n - q;
    assert unit * d == r;
  }

  /** The blocks one run touches, in trace order. */
  function RunBlocks(rows: seq<Row>, blockSize: int, run: RunKey): seq<int>
    requires blockSize > 0
  {
    if rows == [] then [] else
      var r := rows[|rows| - 1];
      RunBlocks(rows[..|rows| - 1], blockSize, run) + if RunOf(r) == run then [BlockOf(r, blockSize)] else []
  }

  /** The distinct blocks of a run, in the order it first touched them. */
  function Touches(rows: seq<Row>, blockSize: int, run: RunKey): seq<int>
    requires blockSize > 0
  {
    FR.FirstTouch(RunBlocks(rows, blockSize, run))
  }

  /** One row more: only its own run's touches can grow, and only by its block. */
  lemma TouchesExtend(rows: seq<Row>, blockSize: int, n: nat, run: RunKey)
    requires blockSize > 0 && n < |rows|
    ensures var old_, new_ := Touches(rows[..n], blockSize, run), Touches(rows[..n + 1], blockSize, run);
      var b := BlockOf(rows[n], blockSize);
      new_ == if RunOf(rows[n]) == run && b !in old_ then old_ + [b] else old_
  {
    assert rows[..n + 1][..n] == rows[..n];
    var s := RunBlocks(rows[..n], blockSize, run);
    FR.FirstTouchAppend(s, BlockOf(rows[n], blockSize));
    assert s + [] == s;
  }

  /** A rank given to a block: by which run, and at which position among its touches. */
  datatype Given = Given(run: RunKey, rank: nat)

  predicate Placed(touches: seq<int>, rank: nat, b: int) { rank < |touches| && touches[rank] == b }

  /** Everything given to b is right so far. */
  ghost predicate GivenOk(rows: seq<Row>, blockSize: int, b: int, gs: seq<Given>)
    requires blockSize > 0
  {
    AllPlaced(rows, blockSize, b, gs) && RunsDiffer(gs) && AllCovered(rows, blockSize, b, gs)
  }

  ghost predicate AllPlaced(rows: seq<Row>, blockSize: int, b: int, gs: seq<Given>)
    requires blockSize > 0
  {
    forall i :: 0 <= i < |gs| ==> Placed(Touches(rows, blockSize, gs[i].run), gs[i].rank, b)
  }

  ghost predicate RunsDiffer(gs: seq<Given>) {
    forall i, j :: 0 <= i < j < |gs| ==> gs[i].run != gs[j].run
  }

  ghost predicate AllCovered(rows: seq<Row>, blockSize: int, b: int, gs: seq<Given>)
    requires blockSize > 0
  {
    forall run :: b in Touches(rows, blockSize, run) ==> Covers(gs, run)
  }

  ghost predicate Covers(gs: seq<Given>, run: RunKey) {
    exists i :: 0 <= i < |gs| && gs[i].run == run
  }

  /** Touches only grow, so a place once taken stays. */
  lemma PlacedKept(rows: seq<Row>, blockSize: int, n: nat, b: int, gs: seq<Given>)
    requires blockSize > 0 && n < |rows| && AllPlaced(rows[..n], blockSize, b, gs)
    ensures AllPlaced(rows[..n + 1], blockSize, b, gs)
  {
    forall i | 0 <= i < |gs| ensures Placed(Touches(rows[..n + 1], blockSize, gs[i].run), gs[i].rank, b) {
      TouchesExtend(rows, blockSize, n, gs[i].run);
    }
  }

  lemma GivenKept(rows: seq<Row>, blockSize: int, n: nat, b: int, gs: seq<Given>)
    requires blockSize > 0 && n < |rows| && GivenOk(rows[..n], blockSize, b, gs)
    requires b != BlockOf(rows[n], blockSize) || b in Touches(rows[..n], blockSize, RunOf(rows[n]))
    ensures GivenOk(rows[..n + 1], blockSize, b, gs)
  {
    PlacedKept(rows, blockSize, n, b, gs);
    forall run | b in Touches(rows[..n + 1], blockSize, run) ensures Covers(gs, run) {
      TouchesExtend(rows, blockSize, n, run);
    }
  }

  lemma CoversAppend(gs: seq<Given>, g: Given, run: RunKey)
    requires Covers(gs, run) || run == g.run
    ensures Covers(gs + [g], run)
  {
    if run == g.run {
      assert (gs + [g])[|gs|].run == run;
    } else {
      var i :| 0 <= i < |gs| && gs[i].run == run;
      assert (gs + [g])[i].run == run;
    }
  }

  /** A run that gave b a rank has touched b. */
  lemma GivenTouched(rows: seq<Row>, blockSize: int, b: int, gs: seq<Given>, i: nat)
    requires blockSize > 0 && GivenOk(rows, blockSize, b, gs) && i < |gs|
    ensures b in Touches(rows, blockSize, gs[i].run)
  {
    var t := Touches(rows, blockSize, gs[i].run);
    assert t[gs[i].rank] in t;
  }

  lemma PlacedGrows(rows: seq<Row>, blockSize: int, b: int, gs: seq<Given>, g: Given)
    requires blockSize > 0 && AllPlaced(rows, blockSize, b, gs) && Placed(Touches(rows, blockSize, g.run), g.rank, b)
    ensures AllPlaced(rows, blockSize, b, gs + [g])
  {
    var hs := gs + [g];
    forall i | 0 <= i < |hs| ensures Placed(Touches(rows, blockSize, hs[i].run), hs[i].rank, b) {
      if i < |gs| { assert hs[i] == gs[i]; } else { assert hs[i] == g; }
    }
  }

  lemma RunsDifferGrows(rows: seq<Row>, blockSize: int, b: int, gs: seq<Given>, g: Given)
    requires blockSize > 0 && GivenOk(rows, blockSize, b, gs) && b !in Touches(rows, blockSize, g.run)
    ensures RunsDiffer(gs + [g])
  {
    forall i | 0 <= i < |gs| ensures gs[i].run != g.run {
      GivenTouched(rows, blockSize, b, gs, i);
    }
  }

  lemma CoveredGrows(rows: seq<Row>, blockSize: int, n: nat, b: int, gs: seq<Given>, g: Given)
    requires blockSize > 0 && n < |rows| && AllCovered(rows[..n], blockSize, b, gs) && g.run == RunOf(rows[n])
    ensures AllCovered(rows[..n + 1], blockSize, b, gs + [g])
  {
    forall run | b in Touches(rows[..n + 1], blockSize, run) ensures Covers(gs + [g], run) {
      TouchesExtend(rows, blockSize, n, run);
      CoversAppend(gs, g, run);
    }
  }

  lemma GivenGrows(rows: seq<Row>, blockSize: int, n: nat, gs: seq<Given>)
    requires blockSize > 0 && n < |rows|
    requires var b, run := BlockOf(rows[n], blockSize), RunOf(rows[n]);
      GivenOk(rows[..n], blockSize, b, gs) && b !in Touches(rows[..n], blockSize, run)
    ensures var b, run := BlockOf(rows[n], blockSize), RunOf(rows[n]);
      GivenOk(rows[..n + 1], blockSize, b, gs + [Given(run, |Touches(rows[..n], blockSize, run)|)])
  {
    var b, run := BlockOf(rows[n], blockSize), RunOf(rows[n]);
    var g := Given(run, |Touches(rows[..n], blockSize, run)|);
    TouchesExtend(rows, blockSize, n, run);
    PlacedKept(rows, blockSize, n, b, gs);
    PlacedGrows(rows[..n + 1], blockSize, b, gs, g);
    RunsDifferGrows(rows[..n], blockSize, b, gs, g);
    CoveredGrows(rows, blockSize, n, b, gs, g);
  }

  /** What b is given, in trace order: each run's first touch of b brings the run and how many blocks
      the run had touched before. */
  function GivenTo(rows: seq<Row>, blockSize: int, b: int): seq<Given>
    requires blockSize > 0
  {
    if rows == [] then [] else
      var before, r := rows[..|rows| - 1], rows[|rows| - 1];
      var t := Touches(before, blockSize, RunOf(r));
      GivenTo(before, blockSize, b) + if BlockOf(r, blockSize) == b && b !in t then [Given(RunOf(r), |t|)] else []
  }

  /** Every run that touches b gives it, once, its position among the run's first touches. */
  lemma {:induction false} GivenToOk(rows: seq<Row>, blockSize: int, b: int)
    requires blockSize > 0
    ensures GivenOk(rows, blockSize, b, GivenTo(rows, blockSize, b))
  {
    if rows != [] {
      var n := |rows| - 1;
      var gs := GivenTo(rows[..n], blockSize, b);
      GivenToOk(rows[..n], blockSize, b);
      assert rows[..n + 1] == rows && gs + [] == gs;
      if BlockOf(rows[n], blockSize) == b && b !in Touches(rows[..n], blockSize, RunOf(rows[n])) {
        GivenGrows(rows, blockSize, n, gs);
      } else {
        GivenKept(rows, blockSize, n, b, gs);
      }
    }
  }

  lemma {:induction false} RunBlocksMember(rows: seq<Row>, blockSize: int, run: RunKey, b: int)
    requires blockSize > 0
    ensures b in RunBlocks(rows, blockSize, run) <==> run in RunsOn(rows, blockSize, b)
  {
    if rows != [] {
      var n := |rows| - 1;
      RunBlocksMember(rows[..n], blockSize, run, b);
      RunsOnExtend(rows, blockSize, n, b);
      assert rows[..n + 1] == rows;
    }
  }

  lemma RunsOnExtend(rows: seq<Row>, blockSize: int, n: nat, b: int)
    requires blockSize > 0 && n < |rows|
    ensures RunsOn(rows[..n + 1], blockSize, b)
         == RunsOn(rows[..n], blockSize, b) + if BlockOf(rows[n], blockSize) == b then {RunOf(rows[n])} else {}
  {
    var s, t := rows[..n], rows[..n + 1];
    assert t[n] == rows[n];
    forall k | k in RunsOn(s, blockSize, b) ensures k in RunsOn(t, blockSize, b) {
      var i :| 0 <= i < |s| && BlockOf(s[i], blockSize) == b && RunOf(s[i]) == k;
      assert t[i] == s[i];
    }
    forall k | k in RunsOn(t, blockSize, b) && !(BlockOf(rows[n], blockSize) == b && k == RunOf(rows[n]))
      ensures k in RunsOn(s, blockSize, b)
    {
      var i :| 0 <= i < |t| && BlockOf(t[i], blockSize) == b && RunOf(t[i]) == k;
      assert s[i] == t[i];
    }
  }

  function RunsIn(gs: seq<Given>): set<RunKey> { set i | 0 <= i < |gs| :: gs[i].run }

  /** The runs that give b a rank are the runs that touch it. */
  lemma GivenRuns(rows: seq<Row>, blockSize: int, b: int)
    requires blockSize > 0
    ensures RunsIn(GivenTo(rows, blockSize, b)) == RunsOn(rows, blockSize, b)
  {
    var gs := GivenTo(rows, blockSize, b);
    GivenToOk(rows, blockSize, b);
    forall run ensures run in RunsIn(gs) <==> run in RunsOn(rows, blockSize, b) {
      RunBlocksMember(rows, blockSize, run, b);
      FR.FirstTouchFacts(RunBlocks(rows, blockSize, run), 0);
      if run in RunsIn(gs) {
        var i :| 0 <= i < |gs| && gs[i].run == run;
        GivenTouched(rows, blockSize, b, gs, i);
      }
      if run in RunsOn(rows, blockSize, b) {
        assert b in Touches(rows, blockSize, run);
        assert Covers(gs, run);
      }
    }
  }

  lemma TouchedIff(rows: seq<Row>, blockSize: int, b: int)
    requires blockSize > 0
    ensures b in Blocks(rows, blockSize) <==> GivenTo(rows, blockSize, b) != []
  {
    GivenRuns(rows, blockSize, b);
    var gs := GivenTo(rows, blockSize, b);
    if gs != [] { assert gs[0].run in RunsIn(gs); }
    if b in Blocks(rows, blockSize) {
      var i :| 0 <= i < |rows| && BlockOf(rows[i], blockSize) == b;
      assert RunOf(rows[i]) in RunsOn(rows, blockSize, b);
    }
  }

  // ---------------------------------------------------------------- percentiles

  const MAXSIZE: int := 0x7fff_ffff_ffff_ffff

  function Insert(x: nat, s: seq<nat>): seq<nat> {
    if s == [] || s[|s| - 1] <= x then s + [x] else Insert(x, s[..|s| - 1]) + [s[|s| - 1]]
  }

  function Ordered(s: seq<nat>): seq<nat> {
    if s == [] then [] else Insert(s[|s| - 1], Ordered(s[..|s| - 1]))
  }

  ghost predicate Ascending(s: seq<nat>) {
    forall i, j :: 0 <= i < j < |s| ==> s[i] <= s[j]
  }

  lemma {:induction false} InsertMember(x: nat, s: seq<nat>, y: nat)
    ensures y in Insert(x, s) <==> y == x || y in s
  {
    if s != [] && s[|s| - 1] > x {
      InsertMember(x, s[..|s| - 1], y);
      assert s == s[..|s| - 1] + [s[|s| - 1]];
    }
  }

  lemma {:induction false} InsertCounts(x: nat, s: seq<nat>, w: nat -> nat)
    ensures |Insert(x, s)| == |s| + 1 && SumBy(w, Insert(x, s)) == SumBy(w, s) + w(x)
  {
    if s == [] || s[|s| - 1] <= x {
      SumByAppend(w, s, x);
    } else {
      var m := |s| - 1;
      InsertCounts(x, s[..m], w);
      SumByAppend(w, Insert(x, s[..m]), s[m]);
    }
  }

  lemma {:induction false} InsertAscends(x: nat, s: seq<nat>)
    requires Ascending(s)
    ensures Ascending(Insert(x, s))
  {
    if s != [] && s[|s| - 1] > x {
      var m := |s| - 1;
      InsertAscends(x, s[..m]);
      var r := Insert(x, s[..m]);
      forall i | 0 <= i < |r| ensures r[i] <= s[m] {
        assert r[i] in r;
        InsertMember(x, s[..m], r[i]);
      }
    }
  }

  lemma {:induction false} OrderedMember(s: seq<nat>, y: nat)
    ensures y in Ordered(s) <==> y in s
  {
    if s != [] {
      OrderedMember(s[..|s| - 1], y);
      InsertMember(s[|s| - 1], Ordered(s[..|s| - 1]), y);
      assert s == s[..|s| - 1] + [s[|s| - 1]];
    }
  }

  /** Sorting puts in order and keeps every count. */
  lemma {:induction false} OrderedFacts(s: seq<nat>, w: nat -> nat)
    ensures Ascending(Ordered(s)) && |Ordered(s)| == |s| && SumBy(w, Ordered(s)) == SumBy(w, s)
  {
    if s != [] {
      var m := |s| - 1;
      OrderedFacts(s[..m], w);
      InsertCounts(s[m], Ordered(s[..m]), w);
      InsertAscends(s[m], Ordered(s[..m]));
    }
  }

  /** Which of n sorted values a percentile picks; the share is in tenths. */
  function Pick(n: nat, tenths: nat): (k: nat)
    requires n > 0 && tenths <= 10
    ensures k < n
  {
    assert (n - 1) * tenths <= (n - 1) * 10;
    (n - 1) * tenths / 10
  }

  /** `percentile` */
  function Percentile(values: seq<nat>, tenths: nat): int
    requires tenths <= 10
  {
    if values == [] then MAXSIZE else
      OrderedFacts(values, AtMost(0));
      Ordered(values)[Pick(|values|, tenths)]
  }

  function Below(v: int): nat -> nat { (x: nat) => if x < v then 1 else 0 }
  function AtMost(v: int): nat -> nat { (x: nat) => if x <= v then 1 else 0 }

  /** In an ascending list, the value at k has at most k values below it, and more than k up to it. */
  lemma CountsAround(s: seq<nat>, k: nat)
    requires Ascending(s) && k < |s|
    ensures SumBy(Below(s[k]), s) <= k < SumBy(AtMost(s[k]), s)
  {
    var v := s[k];
    assert s == s[..k] + s[k..];
    SumByConcat(Below(v), s[..k], s[k..]);
    SumByFull(Below(v), s[..k]);
    SumByZero(Below(v), s[k..]);
    CountsUpTo(s, k);
  }

  lemma CountsUpTo(s: seq<nat>, k: nat)
    requires Ascending(s) && k < |s|
    ensures k < SumBy(AtMost(s[k]), s)
  {
    assert s == s[..k + 1] + s[k + 1..];
    SumByConcat(AtMost(s[k]), s[..k + 1], s[k + 1..]);
    SumByFull(AtMost(s[k]), s[..k + 1]);
  }

  /** A percentile is one of the values: no more than the asked share lies below it, and more than
      that share does not exceed it. The order in which the values came does not matter. */
  lemma PercentileMeaning(values: seq<nat>, tenths: nat)
    requires tenths <= 10 && values != []
    ensures var v, k := Percentile(values, tenths), Pick(|values|, tenths);
      v in values && SumBy(Below(v), values) <= k < SumBy(AtMost(v), values)
  {
    var v, k := Percentile(values, tenths), Pick(|values|, tenths);
    OrderedFacts(values, Below(v));
    OrderedFacts(values, AtMost(v));
    assert Ordered(values)[k] in Ordered(values);
    OrderedMember(values, Ordered(values)[k]);
    CountsAround(Ordered(values), k);
  }

  // ---------------------------------------------------------------- statistics and sort key

  datatype Stat = Stat(median: int, p90: int, frequency: real)

  function Ranked(gs: seq<Given>): seq<nat> { seq(|gs|, i requires 0 <= i < |gs| => gs[i].rank) }

  /** What a block counts as in a set of rows; a block the rows do not touch gets the defaults. */
  function StatOf(rows: seq<Row>, blockSize: int, b: int): Stat
    requires blockSize > 0
  {
    if b !in Blocks(rows, blockSize) then Stat(MAXSIZE, MAXSIZE, 0.0) else
      var ranks := Ranked(GivenTo(rows, blockSize, b));
      Stat(Percentile(ranks, 5), Percentile(ranks, 9), Frequency(rows, blockSize, b))
  }

  /** The statistics of a touched block: the share of runs that touch it, and ranks that at most half, and
      at most nine tenths, of the ranks given to it lie below. */
  lemma StatMeans(rows: seq<Row>, blockSize: int, b: int)
    requires blockSize > 0 && b in Blocks(rows, blockSize)
    ensures var s, ranks := StatOf(rows, blockSize, b), Ranked(GivenTo(rows, blockSize, b));
      && ranks != [] && s.median in ranks && s.p90 in ranks
      && SumBy(Below(s.median), ranks) <= (|ranks| - 1) / 2 < SumBy(AtMost(s.median), ranks)
      && SumBy(Below(s.p90), ranks) <= (|ranks| - 1) * 9 / 10 < SumBy(AtMost(s.p90), ranks)
      && |Runs(rows)| > 0 && s.frequency == |RunsOn(rows, blockSize, b)| as real / |Runs(rows)| as real
  {
    TouchedIff(rows, blockSize, b);
    NonEmptyRuns(rows);
    var ranks := Ranked(GivenTo(rows, blockSize, b));
    PercentileMeaning(ranks, 5);
    PercentileMeaning(ranks, 9);
    assert Pick(|ranks|, 5) == (|ranks| - 1) / 2;
  }

  /** The key of `ordered_blocks`; phase and drive are the same throughout a list. */
  predicate KeyLe(s: Stat, t: Stat, a: int, b: int) {
    if s.median != t.median then s.median < t.median
    else if s.p90 != t.p90 then s.p90 < t.p90
    else if s.frequency != t.frequency then s.frequency > t.frequency
    else a <= b
  }

  function ByKey(stat: int -> Stat): Order { (a, b) => KeyLe(stat(a), stat(b), a, b) }

  /** The sort key orders any two blocks, whatever their statistics: the order of a tier is determined. */
  lemma KeyIsTotalOrder(stat: int -> Stat)
    ensures TotalOrder(ByKey(stat))
  {
    var le := ByKey(stat);
    assert forall a, b :: le(a, b) == KeyLe(stat(a), stat(b), a, b);
  }

  // ---------------------------------------------------------------- the ranking loop

  function SeenBy(m: map<RunKey, set<int>>, run: RunKey): set<int> { if run in m then m[run] else {} }
  function NextRank(m: map<RunKey, nat>, run: RunKey): nat { if run in m then m[run] else 0 }
  function At<V>(m: map<int, seq<V>>, b: int): seq<V> { if b in m then m[b] else [] }

  /** What the ranking loop keeps: blocks seen and next rank per run, and what each block was given
      (`ranks_by_block` and `runs_by_block` side by side). */
  datatype Tally = Tally(seen: map<RunKey, set<int>>, next: map<RunKey, nat>, given: map<int, seq<Given>>)

  function Count(t: Tally, run: RunKey, b: int): Tally {
    if b in SeenBy(t.seen, run) then t else
      var rank := NextRank(t.next, run);
      Tally(t.seen[run := SeenBy(t.seen, run) + {b}], t.next[run := rank + 1],
            t.given[b := At(t.given, b) + [Given(run, rank)]])
  }

  ghost predicate RunsOk(rows: seq<Row>, blockSize: int, t: Tally)
    requires blockSize > 0
  {
    forall run :: RunOk(Touches(rows, blockSize, run), SeenBy(t.seen, run), NextRank(t.next, run))
  }

  ghost predicate RunOk(touches: seq<int>, seen: set<int>, next: nat) {
    next == |touches| && forall b :: b in seen <==> b in touches
  }

  ghost predicate BlocksOk(rows: seq<Row>, blockSize: int, t: Tally)
    requires blockSize > 0
  {
    && (forall b :: At(t.given, b) == GivenTo(rows, blockSize, b))
    && (forall b :: b in t.given ==> t.given[b] != [])
  }

  /** Counting a block leaves a run's record right, given how the run's touches grow. */
  lemma CountRun(t: Tally, who: RunKey, b: int, run: RunKey, touches: seq<int>)
    requires RunOk(touches, SeenBy(t.seen, run), NextRank(t.next, run))
    ensures var t', grown := Count(t, who, b), if who == run && b !in touches then touches + [b] else touches;
      RunOk(grown, SeenBy(t'.seen, run), NextRank(t'.next, run))
  {
  }

  lemma CountRuns(rows: seq<Row>, blockSize: int, n: nat, t: Tally)
    requires blockSize > 0 && n < |rows| && RunsOk(rows[..n], blockSize, t)
    ensures RunsOk(rows[..n + 1], blockSize, Count(t, RunOf(rows[n]), BlockOf(rows[n], blockSize)))
  {
    var who, b := RunOf(rows[n]), BlockOf(rows[n], blockSize);
    forall run
      ensures RunOk(Touches(rows[..n + 1], blockSize, run), SeenBy(Count(t, who, b).seen, run),
                    NextRank(Count(t, who, b).next, run))
    {
      TouchesExtend(rows, blockSize, n, run);
      CountRun(t, who, b, run, Touches(rows[..n], blockSize, run));
    }
  }

  lemma CountBlocks(rows: seq<Row>, blockSize: int, n: nat, t: Tally)
    requires blockSize > 0 && n < |rows| && RunsOk(rows[..n], blockSize, t) && BlocksOk(rows[..n], blockSize, t)
    ensures BlocksOk(rows[..n + 1], blockSize, Count(t, RunOf(rows[n]), BlockOf(rows[n], blockSize)))
  {
    var run, b := RunOf(rows[n]), BlockOf(rows[n], blockSize);
    var t' := Count(t, run, b);
    assert RunOk(Touches(rows[..n], blockSize, run), SeenBy(t.seen, run), NextRank(t.next, run));
    assert rows[..n + 1][..n] == rows[..n];
    forall b' ensures At(t'.given, b') == GivenTo(rows[..n + 1], blockSize, b') {
      assert At(t.given, b') == GivenTo(rows[..n], blockSize, b');
      assert At(t.given, b') + [] == At(t.given, b');
    }
  }

  /** The ranking loop of `block_stats`. */
  method RankBlocks(rows: seq<Row>, blockSize: int) returns (given: map<int, seq<Given>>)
    requires blockSize > 0
    ensures given.Keys == Blocks(rows, blockSize)
    ensures forall b :: b in given ==> given[b] == GivenTo(rows, blockSize, b)
  {
    var t := Tally(map[], map[], map[]);
    for n := 0 to |rows|
      invariant RunsOk(rows[..n], blockSize, t) && BlocksOk(rows[..n], blockSize, t)
    {
      CountRuns(rows, blockSize, n, t);
      CountBlocks(rows, blockSize, n, t);
      t := Count(t, RunOf(rows[n]), BlockOf(rows[n], blockSize));
    }
    assert rows[..|rows|] == rows;
    given := t.given;
    forall b ensures b in given <==> b in Blocks(rows, blockSize) {
      TouchedIff(rows, blockSize, b);
      assert At(given, b) == GivenTo(rows, blockSize, b);
    }
    assert forall b :: b in given ==> given[b] == At(given, b);
  }

  /** `block_stats`: the statistics of exactly the blocks the rows touch. */
  method BlockStats(rows: seq<Row>, blockSize: int) returns (stats: map<int, Stat>)
    requires blockSize > 0
    ensures stats.Keys == Blocks(rows, blockSize)
    ensures forall b :: b in stats ==> stats[b] == StatOf(rows, blockSize, b)
  {
    var totalRuns := |Runs(rows)|;
    if rows == [] { return map[]; }
    NonEmptyRuns(rows);
    var given := RankBlocks(rows, blockSize);
    stats := map b | b in given ::
      Stat(Percentile(Ranked(given[b]), 5), Percentile(Ranked(given[b]), 9),
           |RunsIn(given[b])| as real / totalRuns as real);
    forall b | b in stats ensures stats[b] == StatOf(rows, blockSize, b) {
      GivenRuns(rows, blockSize, b);
    }
  }
}
