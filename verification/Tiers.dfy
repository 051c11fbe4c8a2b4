/** The prefetch tier files: which blocks each one lists, and in which order. */
module Tiers {
  import opened Prefetch
  import opened Ranks

  /** The rows a list's statistics are taken over. */
  function Sample(j: Job, scope: Scope, phase: string, drive: string): seq<Row> {
    Matching(j.rows, j.instance, scope, phase, drive)
  }

  /** The order of a list: by the statistics of its sample. */
  function ListOrder(j: Job, scope: Scope, phase: string, drive: string): Order
    requires j.blockSize > 0
  {
    ByKey(b => StatOf(Sample(j, scope, phase, drive), j.blockSize, b))
  }

  ghost predicate InOrder(rs: seq<Range>, j: Job, scope: Scope, phase: string, drive: string, blocks: set<int>)
    requires j.blockSize > 0
  {
    ListOf(rs, drive, blocks, ListOrder(j, scope, phase, drive))
  }

  /** Tier 0: the two preworkload lists, then the root file system blocks frequent everywhere. */
  ghost predicate IsTier0(j: Job, file: seq<Range>)
    requires j.blockSize > 0
  {
    exists a, b, c ::
      && file == a + b + c
      && InOrder(a, j, SameTask, "preworkload", ROOTFS, Preworkload(j, ROOTFS))
      && InOrder(b, j, SameTask, "preworkload", WORKSPACE, Preworkload(j, WORKSPACE))
      && InOrder(c, j, All, "workload", ROOTFS, CommonRootfs(j))
  }

  /** A workload tier: one list per lower drive. */
  ghost predicate IsWorkloadTier(j: Job, scope: Scope, file: seq<Range>, rootfs: set<int>, workspace: set<int>)
    requires j.blockSize > 0
  {
    exists a, b ::
      && file == a + b
      && InOrder(a, j, scope, "workload", ROOTFS, rootfs)
      && InOrder(b, j, scope, "workload", WORKSPACE, workspace)
  }

  function Lookup(stats: map<int, Stat>, b: int): Stat {
    if b in stats then stats[b] else Stat(MAXSIZE, MAXSIZE, 0.0)
  }

  /** `ordered_blocks` and `range_rows` on one drive's blocks. */
  method EncodeByStats(j: Job, scope: Scope, phase: string, drive: string, blocks: set<int>, stats: map<int, Stat>)
    returns (rs: seq<Range>)
    requires j.blockSize > 0 && stats.Keys == Blocks(Sample(j, scope, phase, drive), j.blockSize)
    requires forall b :: b in stats ==> stats[b] == StatOf(Sample(j, scope, phase, drive), j.blockSize, b)
    ensures InOrder(rs, j, scope, phase, drive, blocks)
  {
    KeyIsTotalOrder(b => Lookup(stats, b));
    rs := Encode(drive, blocks, ByKey(b => Lookup(stats, b)));
    assert forall b :: Lookup(stats, b) == StatOf(Sample(j, scope, phase, drive), j.blockSize, b);
    var le, spec := ByKey(b => Lookup(stats, b)), ListOrder(j, scope, phase, drive);
    assert forall a, b :: le(a, b) == spec(a, b);
  }

  /** `selected_blocks`. */
  method SelectBlocks(j: Job, scope: Scope, drive: string, threshold: real, stats: map<int, Stat>)
    returns (blocks: set<int>)
    requires j.blockSize > 0 && stats.Keys == Blocks(Sample(j, scope, "workload", drive), j.blockSize)
    requires forall b :: b in stats ==> stats[b] == StatOf(Sample(j, scope, "workload", drive), j.blockSize, b)
    ensures blocks == Frequent(j, scope, drive, threshold)
  {
    blocks := set b | b in stats && stats[b].frequency >= threshold;
  }

  /** The body of the loop over drives in `workload_rows`. */
  method DriveRows(j: Job, scope: Scope, drive: string, threshold: real, already: set<int>)
    returns (rs: seq<Range>, selected: set<int>)
    requires j.blockSize > 0
    ensures selected == Frequent(j, scope, drive, threshold) - already
    ensures InOrder(rs, j, scope, "workload", drive, selected)
  {
    var rows := MatchingRows(j.rows, j.instance, scope, "workload", drive);
    var stats := BlockStats(rows, j.blockSize);
    selected := SelectBlocks(j, scope, drive, threshold, stats);
    selected := selected - already;
    rs := EncodeByStats(j, scope, "workload", drive, selected, stats);
  }

  /** `workload_rows`: per lower drive, the frequent blocks not selected before. */
  method WorkloadRows(j: Job, scope: Scope, thresholds: string -> real, already: map<string, set<int>>)
    returns (out: seq<Range>, selected: map<string, set<int>>)
    requires j.blockSize > 0 && already.Keys == {ROOTFS, WORKSPACE}
    ensures selected.Keys == {ROOTFS, WORKSPACE}
    ensures forall d :: IsLower(d) ==> selected[d] == Frequent(j, scope, d, thresholds(d)) - already[d]
    ensures IsWorkloadTier(j, scope, out, selected[ROOTFS], selected[WORKSPACE])
  {
    var ra, a := DriveRows(j, scope, ROOTFS, thresholds(ROOTFS), already[ROOTFS]);
    var rb, b := DriveRows(j, scope, WORKSPACE, thresholds(WORKSPACE), already[WORKSPACE]);
    selected := map[ROOTFS := a, WORKSPACE := b];
    out := ra + rb;
  }

  /** One drive of `preworkload_union_rows`. */
  method PreworkloadRows(j: Job, drive: string) returns (rs: seq<Range>, selected: set<int>)
    requires j.blockSize > 0
    ensures selected == Preworkload(j, drive)
    ensures InOrder(rs, j, SameTask, "preworkload", drive, selected)
  {
    var rows := MatchingRows(j.rows, j.instance, SameTask, "preworkload", drive);
    var stats := BlockStats(rows, j.blockSize);
    selected := Blocks(rows, j.blockSize);
    rs := EncodeByStats(j, SameTask, "preworkload", drive, selected, stats);
  }

  /** Tier 0, and everything it selects: the union of what the task's own runs read before the
      workload, then the root file system blocks frequent everywhere, as a list of their own. */
  method CommonTier(j: Job) returns (tier0: seq<Range>, selected: map<string, set<int>>)
    requires j.blockSize > 0
    ensures selected.Keys == {ROOTFS, WORKSPACE}
    ensures forall d :: IsLower(d) ==> selected[d] == Tier0(j, d)
    ensures IsTier0(j, tier0)
  {
    var ra, a := PreworkloadRows(j, ROOTFS);
    var rb, b := PreworkloadRows(j, WORKSPACE);
    var rc, c := DriveRows(j, All, ROOTFS, j.common, a);
    tier0 := ra + rb + rc;
    selected := map[ROOTFS := a + c, WORKSPACE := b];
  }

  /** `main`: the three range files. Each is a concatenation of lists, one per source and drive, and
      each list names its blocks in the order of their statistics, as maximal ranges. */
  method BuildTiers(j: Job) returns (tier0: seq<Range>, tier1: seq<Range>, tier2: seq<Range>)
    requires j.blockSize > 0
    ensures IsTier0(j, tier0)
    ensures IsWorkloadTier(j, SameRepo, tier1, Tier1(j, ROOTFS), Tier1(j, WORKSPACE))
    ensures IsWorkloadTier(j, SameTask, tier2, Tier2(j, ROOTFS), Tier2(j, WORKSPACE))
  {
    var selected0, selected1, selected2;
    tier0, selected0 := CommonTier(j);
    tier1, selected1 := WorkloadRows(j, SameRepo, j.repo, selected0);
    var both := map[ROOTFS := selected0[ROOTFS] + selected1[ROOTFS],
                    WORKSPACE := selected0[WORKSPACE] + selected1[WORKSPACE]];      // merge_selected
    tier2, selected2 := WorkloadRows(j, SameTask, j.task, both);
  }

  // ---------------------------------------------------------------- what the files say

  lemma OrderIsTotal(j: Job, scope: Scope, phase: string, drive: string)
    requires j.blockSize > 0
    ensures TotalOrder(ListOrder(j, scope, phase, drive))
  {
    KeyIsTotalOrder(b => StatOf(Sample(j, scope, phase, drive), j.blockSize, b));
  }

  /** Earlier in a list means a smaller median rank; among equals a smaller 90th percentile rank; then a
      greater share of runs; then a smaller block. */
  predicate ListedBefore(s: Stat, t: Stat, a: int, b: int) {
    && s.median <= t.median
    && (s.median == t.median ==> s.p90 <= t.p90)
    && (s.median == t.median && s.p90 == t.p90 ==> s.frequency >= t.frequency)
    && (s == t ==> a < b)
  }

  lemma ListedByRank(rs: seq<Range>, j: Job, scope: Scope, phase: string, drive: string, blocks: set<int>,
                     m: nat, n: nat)
    requires j.blockSize > 0 && InOrder(rs, j, scope, phase, drive, blocks) && m < n < |Expand(rs, drive)|
    ensures var a, b := Expand(rs, drive)[m], Expand(rs, drive)[n];
      var rows := Sample(j, scope, phase, drive);
      ListedBefore(StatOf(rows, j.blockSize, a), StatOf(rows, j.blockSize, b), a, b)
  {
    var a, b := Expand(rs, drive)[m], Expand(rs, drive)[n];
    var le := ListOrder(j, scope, phase, drive);
    assert le(a, b);
    var rows := Sample(j, scope, phase, drive);
    assert KeyLe(StatOf(rows, j.blockSize, a), StatOf(rows, j.blockSize, b), a, b);
  }

  /** The files are determined by the job: there is one tier 0, and one of each workload tier. */
  lemma Tier0Unique(j: Job, f: seq<Range>, g: seq<Range>)
    requires j.blockSize > 0 && IsTier0(j, f) && IsTier0(j, g)
    ensures f == g
  {
    OrderIsTotal(j, SameTask, "preworkload", ROOTFS);
    OrderIsTotal(j, SameTask, "preworkload", WORKSPACE);
    OrderIsTotal(j, All, "workload", ROOTFS);
    var a, b, c :| && f == a + b + c
      && InOrder(a, j, SameTask, "preworkload", ROOTFS, Preworkload(j, ROOTFS))
      && InOrder(b, j, SameTask, "preworkload", WORKSPACE, Preworkload(j, WORKSPACE))
      && InOrder(c, j, All, "workload", ROOTFS, CommonRootfs(j));
    var a', b', c' :| && g == a' + b' + c'
      && InOrder(a', j, SameTask, "preworkload", ROOTFS, Preworkload(j, ROOTFS))
      && InOrder(b', j, SameTask, "preworkload", WORKSPACE, Preworkload(j, WORKSPACE))
      && InOrder(c', j, All, "workload", ROOTFS, CommonRootfs(j));
    ListUnique(a, a', ROOTFS, Preworkload(j, ROOTFS), ListOrder(j, SameTask, "preworkload", ROOTFS));
    ListUnique(b, b', WORKSPACE, Preworkload(j, WORKSPACE), ListOrder(j, SameTask, "preworkload", WORKSPACE));
    ListUnique(c, c', ROOTFS, CommonRootfs(j), ListOrder(j, All, "workload", ROOTFS));
  }

  lemma WorkloadTierUnique(j: Job, scope: Scope, f: seq<Range>, g: seq<Range>, x: set<int>, y: set<int>)
    requires j.blockSize > 0 && IsWorkloadTier(j, scope, f, x, y) && IsWorkloadTier(j, scope, g, x, y)
    ensures f == g
  {
    OrderIsTotal(j, scope, "workload", ROOTFS);
    OrderIsTotal(j, scope, "workload", WORKSPACE);
    var a, b :|
      f == a + b && InOrder(a, j, scope, "workload", ROOTFS, x) && InOrder(b, j, scope, "workload", WORKSPACE, y);
    var a', b' :|
      g == a' + b' && InOrder(a', j, scope, "workload", ROOTFS, x) && InOrder(b', j, scope, "workload", WORKSPACE, y);
    ListUnique(a, a', ROOTFS, x, ListOrder(j, scope, "workload", ROOTFS));
    ListUnique(b, b', WORKSPACE, y, ListOrder(j, scope, "workload", WORKSPACE));
  }

  /** Tier 0 names each of its blocks exactly once per drive, although it joins three lists. */
  lemma Tier0Lists(j: Job, file: seq<Range>, drive: string)
    requires j.blockSize > 0 && IsTier0(j, file) && IsLower(drive)
    ensures Lists(file, drive, Tier0(j, drive))
  {
    var a, b, c :| && file == a + b + c
      && InOrder(a, j, SameTask, "preworkload", ROOTFS, Preworkload(j, ROOTFS))
      && InOrder(b, j, SameTask, "preworkload", WORKSPACE, Preworkload(j, WORKSPACE))
      && InOrder(c, j, All, "workload", ROOTFS, CommonRootfs(j));
    var pre, common := Preworkload(j, drive), CommonRootfs(j);
    TwoDrives(a, b, Preworkload(j, ROOTFS), Preworkload(j, WORKSPACE), drive);
    if drive == ROOTFS {
      ListsConcat(a + b, c, drive, pre, common);
    } else {
      ListsOther(c, ROOTFS, drive);
      ListsConcat(a + b, c, drive, pre, {});
    }
  }

  lemma TwoDrives(a: seq<Range>, b: seq<Range>, x: set<int>, y: set<int>, drive: string)
    requires Maximal(a, ROOTFS) && Maximal(b, WORKSPACE) && Lists(a, ROOTFS, x) && Lists(b, WORKSPACE, y)
    requires IsLower(drive)
    ensures Lists(a + b, drive, if drive == ROOTFS then x else y)
  {
    if drive == ROOTFS {
      ListsOther(b, WORKSPACE, drive);
      ListsConcat(a, b, drive, x, {});
      assert x + {} == x;
    } else {
      ListsOther(a, ROOTFS, drive);
      ListsConcat(a, b, drive, {}, y);
      assert {} + y == y;
    }
  }

  lemma WorkloadTierLists(j: Job, scope: Scope, file: seq<Range>, x: set<int>, y: set<int>, drive: string)
    requires j.blockSize > 0 && IsWorkloadTier(j, scope, file, x, y) && IsLower(drive)
    ensures Lists(file, drive, if drive == ROOTFS then x else y)
  {
    var a, b :|
      file == a + b && InOrder(a, j, scope, "workload", ROOTFS, x) && InOrder(b, j, scope, "workload", WORKSPACE, y);
    TwoDrives(a, b, x, y, drive);
  }
}
