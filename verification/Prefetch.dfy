/** From traced blocks to prefetch tiers: frequencies, selection, ordering and range encoding. */
module Prefetch {
  import opened Common

  datatype Row = Row(task: string, run: string, phase: string, drive: string, offset: int)

  datatype Scope = SameTask | SameRepo | All

  /** `task.rsplit("-", 1)[0]` */
  function Repo(task: string): string {
    if task == [] then []
    else if task[|task| - 1] == '-' then task[..|task| - 1]
    else if '-' in task then Repo(task[..|task| - 1])
    else task
  }

  /** The repository of a task is what stands before its last dash, or the whole of it. */
  lemma {:induction false} RepoMeans(task: string) returns (s: string)
    ensures '-' in task ==> task == Repo(task) + "-" + s && '-' !in s
    ensures '-' !in task ==> Repo(task) == task
  {
    s := "";
    if task != [] && task[|task| - 1] != '-' && '-' in task {
      s := RepoMeans(task[..|task| - 1]);
      s := s + [task[|task| - 1]];
      assert task == task[..|task| - 1] + [task[|task| - 1]];
    }
  }

  predicate InScope(task: string, instance: string, scope: Scope) {
    match scope
    case SameTask => task == instance
    case SameRepo => Repo(task) == Repo(instance)
    case All => true
  }

  function BlockOf(r: Row, blockSize: int): int
    requires blockSize > 0
  {
    r.offset / blockSize
  }

  /** The rows a statistic is taken over. */
  function Matching(rows: seq<Row>, instance: string, scope: Scope, phase: string, drive: string): seq<Row> {
    if rows == [] then [] else
      var r := rows[|rows| - 1];
      Matching(rows[..|rows| - 1], instance, scope, phase, drive) +
      if r.phase == phase && r.drive == drive && InScope(r.task, instance, scope) then [r] else []
  }

  lemma {:induction false} MatchingMember(rows: seq<Row>, instance: string, scope: Scope, phase: string, drive: string,
                                          r: Row)
    ensures r in Matching(rows, instance, scope, phase, drive) <==>
      r in rows && r.phase == phase && r.drive == drive && InScope(r.task, instance, scope)
  {
    if rows != [] {
      var m := |rows| - 1;
      MatchingMember(rows[..m], instance, scope, phase, drive, r);
      assert rows == rows[..m] + [rows[m]];
    }
  }

  type RunKey = (string, string)

  function RunOf(r: Row): RunKey { (r.task, r.run) }

  function Runs(rows: seq<Row>): set<RunKey> {
    set i | 0 <= i < |rows| :: RunOf(rows[i])
  }

  function RunsOn(rows: seq<Row>, blockSize: int, b: int): set<RunKey>
    requires blockSize > 0
  {
    set i | 0 <= i < |rows| && BlockOf(rows[i], blockSize) == b :: RunOf(rows[i])
  }

  function Blocks(rows: seq<Row>, blockSize: int): set<int>
    requires blockSize > 0
  {
    set i | 0 <= i < |rows| :: BlockOf(rows[i], blockSize)
  }

  /** Share of the runs that touch a block. */
  function Frequency(rows: seq<Row>, blockSize: int, b: int): real
    requires blockSize > 0 && rows != []
  {
    NonEmptyRuns(rows);
    |RunsOn(rows, blockSize, b)| as real / |Runs(rows)| as real
  }

  lemma NonEmptyRuns(rows: seq<Row>)
    requires rows != []
    ensures |Runs(rows)| > 0
  {
    assert RunOf(rows[0]) in Runs(rows);
  }

  /** Blocks whose frequency meets the threshold. */
  function Selected(rows: seq<Row>, blockSize: int, threshold: real): set<int>
    requires blockSize > 0
  {
    set b | b in Blocks(rows, blockSize) && Frequency(rows, blockSize, b) >= threshold
  }

  /** A block is selected exactly when some row touches it and the runs that do make up the threshold's
      share of all runs. */
  lemma SelectedIff(rows: seq<Row>, blockSize: int, threshold: real, b: int)
    requires blockSize > 0
    ensures b in Selected(rows, blockSize, threshold) <==>
      && (exists i :: 0 <= i < |rows| && BlockOf(rows[i], blockSize) == b)
      && |RunsOn(rows, blockSize, b)| as real >= threshold * |Runs(rows)| as real
  {
    if rows != [] {
      NonEmptyRuns(rows);
      ShareMeets(|RunsOn(rows, blockSize, b)| as real, |Runs(rows)| as real, threshold);
    }
  }

  lemma ShareMeets(part: real, whole: real, threshold: real)
    requires whole > 0.0
    ensures part / whole >= threshold <==> part >= threshold * whole
  {
    var q := part / whole;
    assert q * whole == part;
    if q >= threshold { assert (q - threshold) * whole >= 0.0; }
    if q < threshold { assert (threshold - q) * whole > 0.0; }
  }

  method MatchingRows(rows: seq<Row>, instance: string, scope: Scope, phase: string, drive: string)
    returns (out: seq<Row>)
    ensures out == Matching(rows, instance, scope, phase, drive)
  {
    out := [];
    for n := 0 to |rows|
      invariant out == Matching(rows[..n], instance, scope, phase, drive)
    {
      var r := rows[n];
      assert rows[..n + 1][..n] == rows[..n];
      if r.phase == phase && r.drive == drive && InScope(r.task, instance, scope) {
        out := out + [r];
      }
    }
    assert rows[..|rows|] == rows;
  }

  // ---------------------------------------------------------------- ordering

  type Order = (int, int) -> bool

  ghost predicate TotalOrder(le: Order) {
    && (forall a, b :: le(a, b) || le(b, a))
    && (forall a, b :: le(a, b) && le(b, a) ==> a == b)
    && (forall a, b, c :: le(a, b) && le(b, c) ==> le(a, c))
  }

  predicate Distinct(s: seq<int>) {
    forall i, j :: 0 <= i < j < |s| ==> s[i] != s[j]
  }

  ghost predicate SortedBy(s: seq<int>, le: Order) {
    forall i, j :: 0 <= i < j < |s| ==> le(s[i], s[j])
  }

  method First(blocks: set<int>, le: Order) returns (m: int)
    requires blocks != {} && TotalOrder(le)
    ensures m in blocks && forall x :: x in blocks ==> le(m, x)
  {
    ghost var w := Member(blocks);
    m :| m in blocks;
    var left := blocks - {m};
    while left != {}
      invariant left <= blocks && m in blocks && forall x :: x in blocks && x !in left ==> le(m, x)
    {
      w := Member(left);
      var x :| x in left;
      left := left - {x};
      if !le(m, x) { m := x; }
    }
  }

  /** `ordered_blocks`: every block of the set once, in order. */
  method OrderedBlocks(blocks: set<int>, le: Order) returns (out: seq<int>)
    requires TotalOrder(le)
    ensures forall b :: b in out <==> b in blocks
    ensures Distinct(out) && SortedBy(out, le)
  {
    out := [];
    var left := blocks;
    while left != {}
      invariant left <= blocks && forall b :: b in out <==> b in blocks && b !in left
      invariant Distinct(out) && SortedBy(out, le)
      invariant forall i, x :: 0 <= i < |out| && x in left ==> le(out[i], x)
    {
      var m := First(left, le);
      out := out + [m];
      left := left - {m};
    }
  }

  /** A total order leaves one way to list a set. */
  lemma {:induction false} SortedUnique(s: seq<int>, t: seq<int>, le: Order)
    requires TotalOrder(le) && Distinct(s) && Distinct(t) && SortedBy(s, le) && SortedBy(t, le)
    requires forall b :: b in s <==> b in t
    ensures s == t
  {
    SomeIn(s, t);
    SomeIn(t, s);
    if s != [] {
      var m, n := |s| - 1, |t| - 1;
      LastIsGreatest(s, t[n], le);
      LastIsGreatest(t, s[m], le);
      forall b ensures b in s[..m] <==> b in t[..n] {
        DropLast(s, b);
        DropLast(t, b);
      }
      SortedUnique(s[..m], t[..n], le);
      SameWithLast(s, t);
    }
  }

  lemma LastIsGreatest(s: seq<int>, b: int, le: Order)
    requires TotalOrder(le) && SortedBy(s, le) && b in s
    ensures le(b, s[|s| - 1])
  {
    var i :| 0 <= i < |s| && s[i] == b;
    assert i == |s| - 1 || le(s[i], s[|s| - 1]);
  }

  lemma SomeIn(s: seq<int>, t: seq<int>)
    requires forall b :: b in s ==> b in t
    ensures s != [] ==> t != []
  {
    if s != [] {
      var b := s[0];
      assert b in s;
    }
  }

  lemma DropLast(s: seq<int>, b: int)
    requires s != [] && Distinct(s)
    ensures b in s[..|s| - 1] <==> b in s && b != s[|s| - 1]
  {
    assert s == s[..|s| - 1] + [s[|s| - 1]];
  }

  // ---------------------------------------------------------------- range encoding

  datatype Range = Range(drive: string, start: int, end: int)

  function Pages(first: int, last: int): seq<int>
    decreases last - first + 1
  {
    if last < first then [] else Pages(first, last - 1) + [last]
  }

  /** The pages of one drive that a list of ranges names, in order. */
  function Expand(rs: seq<Range>, drive: string): seq<int> {
    if rs == [] then [] else
      Expand(rs[..|rs| - 1], drive) +
      if rs[|rs| - 1].drive == drive then Pages(rs[|rs| - 1].start, rs[|rs| - 1].end) else []
  }

  /** Non-empty ranges of one drive, none of which continues the one before. */
  ghost predicate Maximal(rs: seq<Range>, drive: string) {
    && (forall i :: 0 <= i < |rs| ==> rs[i].drive == drive && rs[i].start <= rs[i].end)
    && (forall i, j :: 0 <= i < j < |rs| && j == i + 1 ==> rs[j].start != rs[i].end + 1)
  }

  lemma ExpandAppend(rs: seq<Range>, r: Range, drive: string)
    ensures Expand(rs + [r], drive) == Expand(rs, drive) + if r.drive == drive then Pages(r.start, r.end) else []
  {
    assert (rs + [r])[..|rs|] == rs;
  }

  lemma PageOne(b: int)
    ensures Pages(b, b) == [b]
  {
    assert Pages(b, b - 1) == [];
  }

  /** The ranges closed so far, and the run start..prev still open, stand for `done`. */
  ghost predicate Encodes(rs: seq<Range>, drive: string, start: int, prev: int, done: seq<int>) {
    && Maximal(rs, drive) && start <= prev
    && (|rs| > 0 ==> start != rs[|rs| - 1].end + 1)
    && Expand(rs, drive) + Pages(start, prev) == done
  }

  lemma GrowRun(rs: seq<Range>, drive: string, start: int, prev: int, done: seq<int>)
    requires Encodes(rs, drive, start, prev, done)
    ensures Encodes(rs, drive, start, prev + 1, done + [prev + 1])
  {
    var head := Expand(rs, drive);
    assert head + (Pages(start, prev) + [prev + 1]) == head + Pages(start, prev) + [prev + 1];
  }

  lemma CloseRun(rs: seq<Range>, drive: string, start: int, prev: int, done: seq<int>)
    requires Encodes(rs, drive, start, prev, done)
    ensures Maximal(rs + [Range(drive, start, prev)], drive)
    ensures Expand(rs + [Range(drive, start, prev)], drive) == done
  {
    ExpandAppend(rs, Range(drive, start, prev), drive);
  }

  lemma OpenRun(rs: seq<Range>, drive: string, start: int, prev: int, done: seq<int>, block: int)
    requires Encodes(rs, drive, start, prev, done) && block != prev + 1
    ensures Encodes(rs + [Range(drive, start, prev)], drive, block, block, done + [block])
  {
    CloseRun(rs, drive, start, prev, done);
    PageOne(block);
  }

  /** `range_rows`: the encoding expands to the list it came from, and its ranges are maximal. */
  method RangeRows(drive: string, ordered: seq<int>) returns (rs: seq<Range>)
    ensures Expand(rs, drive) == ordered
    ensures Maximal(rs, drive)
  {
    rs := [];
    if ordered == [] { return; }
    var start, prev := ordered[0], ordered[0];
    PageOne(start);
    assert ordered[..1] == [start] && [] + [start] == [start];
    var n := 1;
    while n < |ordered|
      invariant 1 <= n <= |ordered| && Encodes(rs, drive, start, prev, ordered[..n])
    {
      var block := ordered[n];
      assert ordered[..n + 1] == ordered[..n] + [block];
      if block == prev + 1 {
        GrowRun(rs, drive, start, prev, ordered[..n]);
        prev := block;
      } else {
        OpenRun(rs, drive, start, prev, ordered[..n], block);
        rs := rs + [Range(drive, start, prev)];
        start, prev := block, block;
      }
      n := n + 1;
    }
    assert ordered[..n] == ordered;
    CloseRun(rs, drive, start, prev, ordered);
    rs := rs + [Range(drive, start, prev)];
  }

  /** The encoding is canonical: two maximal range lists that expand alike are the same list. */
  lemma {:induction false} MaximalUnique(a: seq<Range>, b: seq<Range>, drive: string)
    requires Maximal(a, drive) && Maximal(b, drive) && Expand(a, drive) == Expand(b, drive)
    ensures a == b
  {
    if b == [] {
      if a != [] { ExpandEnds(a, drive); }
    } else if a == [] {
      ExpandEnds(b, drive);
    } else {
      var m, n := |a| - 1, |b| - 1;
      LastRangesMatch(a, b, drive);
      MaximalPrefix(a, drive);
      MaximalPrefix(b, drive);
      MaximalUnique(a[..m], b[..n], drive);
      SameWithLast(a, b);
    }
  }

  lemma MaximalPrefix(rs: seq<Range>, drive: string)
    requires Maximal(rs, drive) && rs != []
    ensures Maximal(rs[..|rs| - 1], drive)
  {
  }

  lemma SameWithLast<T>(a: seq<T>, b: seq<T>)
    requires a != [] && b != [] && a[..|a| - 1] == b[..|b| - 1] && a[|a| - 1] == b[|b| - 1]
    ensures a == b
  {
    assert a == a[..|a| - 1] + [a[|a| - 1]] && b == b[..|b| - 1] + [b[|b| - 1]];
  }

  lemma LastRangesMatch(a: seq<Range>, b: seq<Range>, drive: string)
    requires Maximal(a, drive) && Maximal(b, drive) && Expand(a, drive) == Expand(b, drive) && a != [] && b != []
    ensures a[|a| - 1] == b[|b| - 1]
    ensures Expand(a[..|a| - 1], drive) == Expand(b[..|b| - 1], drive)
  {
    ExpandEnds(a, drive);
    ExpandEnds(b, drive);
    var x, y := a[|a| - 1], b[|b| - 1];
    NoPageBefore(a, drive);
    NoPageBefore(b, drive);
    LastRun(Expand(a[..|a| - 1], drive), x.start, Expand(b[..|b| - 1], drive), y.start, x.end);
  }

  lemma PagesLength(first: int, last: int)
    requires first <= last + 1
    ensures |Pages(first, last)| == last - first + 1
    ensures forall i :: 0 <= i < |Pages(first, last)| ==> Pages(first, last)[i] == first + i
    decreases last - first + 1
  {
    if first <= last { PagesLength(first, last - 1); }
  }

  /** A non-empty maximal encoding ends with the last page of its last range. */
  lemma ExpandEnds(rs: seq<Range>, drive: string)
    requires Maximal(rs, drive) && rs != []
    ensures var e, last := Expand(rs, drive), rs[|rs| - 1];
      |e| >= last.end - last.start + 1 && e[|e| - 1] == last.end
  {
    PagesLength(rs[|rs| - 1].start, rs[|rs| - 1].end);
  }

  /** If two lists that end in runs up to the same page are equal, either the runs start together,
      or the shorter run is preceded by the page before it. */
  lemma LastRun(p: seq<int>, a: int, q: seq<int>, b: int, end: int)
    requires a <= end && b <= end && p + Pages(a, end) == q + Pages(b, end)
    ensures a == b ==> p == q
    ensures a < b ==> |q| > 0 && q[|q| - 1] == b - 1
    ensures b < a ==> |p| > 0 && p[|p| - 1] == a - 1
  {
    PagesLength(a, end);
    PagesLength(b, end);
    var l := p + Pages(a, end);
    assert |p| + (end - a + 1) == |q| + (end - b + 1);
    assert l[..|p|] == p && (q + Pages(b, end))[..|q|] == q;
    if a < b { assert l[|q| - 1] == Pages(a, end)[|q| - 1 - |p|]; }
    if b < a { assert l[|p| - 1] == Pages(b, end)[|p| - 1 - |q|]; }
  }

  /** The last range of a maximal encoding is not preceded by the page before it. */
  lemma NoPageBefore(rs: seq<Range>, drive: string)
    requires Maximal(rs, drive) && rs != []
    ensures var p := Expand(rs[..|rs| - 1], drive);
      |p| > 0 ==> p[|p| - 1] != rs[|rs| - 1].start - 1
  {
    var m := |rs| - 1;
    if m > 0 { ExpandEnds(rs[..m], drive); }
  }

  // ---------------------------------------------------------------- tiers

  const ROOTFS := "rootfs"
  const WORKSPACE := "workspace"

  predicate IsLower(drive: string) { drive == ROOTFS || drive == WORKSPACE }

  /** The run's inputs: trace rows, block size, instance, and the thresholds per tier and drive. */
  datatype Job = Job(rows: seq<Row>, blockSize: int, instance: string,
                     common: real, repo: string -> real, task: string -> real)

  function Frequent(j: Job, scope: Scope, drive: string, threshold: real): set<int>
    requires j.blockSize > 0
  {
    Selected(Matching(j.rows, j.instance, scope, "workload", drive), j.blockSize, threshold)
  }

  function Preworkload(j: Job, drive: string): set<int>
    requires j.blockSize > 0
  {
    Blocks(Matching(j.rows, j.instance, SameTask, "preworkload", drive), j.blockSize)
  }

  function CommonRootfs(j: Job): set<int>
    requires j.blockSize > 0
  {
    Frequent(j, All, ROOTFS, j.common) - Preworkload(j, ROOTFS)
  }

  function Tier0(j: Job, drive: string): set<int>
    requires j.blockSize > 0
  {
    Preworkload(j, drive) + if drive == ROOTFS then CommonRootfs(j) else {}
  }

  function Tier1(j: Job, drive: string): set<int>
    requires j.blockSize > 0
  {
    Frequent(j, SameRepo, drive, j.repo(drive)) - Tier0(j, drive)
  }

  function Tier2(j: Job, drive: string): set<int>
    requires j.blockSize > 0
  {
    Frequent(j, SameTask, drive, j.task(drive)) - (Tier0(j, drive) + Tier1(j, drive))
  }

  /** The tiers are disjoint; a block frequent in the task's own workload is in exactly one; every
      tier-2 block is such a block, and so is every tier-1 block of the repository's workload. */
  lemma TiersPartition(j: Job, drive: string, b: int)
    requires j.blockSize > 0
    ensures Tier0(j, drive) !! Tier1(j, drive) !! Tier2(j, drive)
    ensures b in Frequent(j, SameTask, drive, j.task(drive)) ==>
      b in Tier0(j, drive) + Tier1(j, drive) + Tier2(j, drive)
    ensures b in Tier2(j, drive) <==> b in Frequent(j, SameTask, drive, j.task(drive))
                                      && b !in Frequent(j, SameRepo, drive, j.repo(drive)) && b !in Tier0(j, drive)
    ensures b in Tier1(j, drive) <==> b in Frequent(j, SameRepo, drive, j.repo(drive)) && b !in Tier0(j, drive)
    ensures b in Tier0(j, drive) <==>
      b in Preworkload(j, drive) || (drive == ROOTFS && b in Frequent(j, All, ROOTFS, j.common))
  {
  }

  /** A range list names the pages of a set, each exactly once. */
  ghost predicate Lists(rs: seq<Range>, drive: string, blocks: set<int>) {
    Distinct(Expand(rs, drive)) && forall b :: b in Expand(rs, drive) <==> b in blocks
  }

  lemma {:induction false} ExpandConcat(a: seq<Range>, b: seq<Range>, drive: string)
    ensures Expand(a + b, drive) == Expand(a, drive) + Expand(b, drive)
  {
    if b == [] {
      assert a + b == a;
    } else {
      var m := |b| - 1;
      ExpandConcat(a, b[..m], drive);
      ConcatLast(a, b);
      ExpandAppend(a + b[..m], b[m], drive);
      var pages := if b[m].drive == drive then Pages(b[m].start, b[m].end) else [];
      ConcatAssociates(Expand(a, drive), Expand(b[..m], drive), pages);
    }
  }

  lemma {:induction false} ExpandOther(rs: seq<Range>, drive: string)
    requires forall i :: 0 <= i < |rs| ==> rs[i].drive != drive
    ensures Expand(rs, drive) == []
  {
    if rs != [] { ExpandOther(rs[..|rs| - 1], drive); }
  }

  lemma ListsConcat(a: seq<Range>, b: seq<Range>, drive: string, x: set<int>, y: set<int>)
    requires Lists(a, drive, x) && Lists(b, drive, y) && x !! y
    ensures Lists(a + b, drive, x + y)
  {
    ExpandConcat(a, b, drive);
    var e, f := Expand(a, drive), Expand(b, drive);
    forall i, j | 0 <= i < j < |e + f| ensures (e + f)[i] != (e + f)[j] {
      if i < |e| <= j {
        assert e[i] in e && f[j - |e|] in f;
      }
    }
  }

  lemma ListsOther(rs: seq<Range>, drive: string, other: string)
    requires Maximal(rs, drive) && other != drive
    ensures Lists(rs, other, {})
  {
    ExpandOther(rs, other);
  }

  /** One separately encoded list: the blocks of a set, in order, as maximal ranges of one drive. */
  ghost predicate ListOf(rs: seq<Range>, drive: string, blocks: set<int>, le: Order) {
    Maximal(rs, drive) && Lists(rs, drive, blocks) && SortedBy(Expand(rs, drive), le)
  }

  /** Drive, blocks and order leave one list of ranges. */
  lemma ListUnique(a: seq<Range>, b: seq<Range>, drive: string, blocks: set<int>, le: Order)
    requires TotalOrder(le) && ListOf(a, drive, blocks, le) && ListOf(b, drive, blocks, le)
    ensures a == b
  {
    SortedUnique(Expand(a, drive), Expand(b, drive), le);
    MaximalUnique(a, b, drive);
  }

  method Encode(drive: string, blocks: set<int>, le: Order) returns (rs: seq<Range>)
    requires TotalOrder(le)
    ensures ListOf(rs, drive, blocks, le)
  {
    var ordered := OrderedBlocks(blocks, le);
    rs := RangeRows(drive, ordered);
  }
}
