/** Attribution of first-read blocks through the block atlas: loading, lookup and class totals. */
module BlockAtlas {
  import opened Common
  import opened FirstReads

  datatype Entry = Entry(kind: string, path: string, inode: string, logicalBlock: string)

  /** A row of the atlas CSV files. */
  datatype AtlasRow = AtlasRow(drive: string, id: int, entry: Entry)

  type Grouped = map<string, map<int, seq<Entry>>>

  /** The entries of one block, in file order. */
  function EntriesFor(rows: seq<AtlasRow>, drive: string, id: int): seq<Entry> {
    if rows == [] then [] else
      var r := rows[|rows| - 1];
      EntriesFor(rows[..|rows| - 1], drive, id) + if r.drive == drive && r.id == id then [r.entry] else []
  }

  predicate Indexed(rows: seq<AtlasRow>, drive: string) {
    exists i :: 0 <= i < |rows| && rows[i].drive == drive
  }

  function Get(g: Grouped, drive: string, id: int): seq<Entry> {
    if drive in g && id in g[drive] then g[drive][id] else []
  }

  function AddRow(g: Grouped, r: AtlasRow): Grouped {
    var blocks := if r.drive in g then g[r.drive] else map[];
    var entries := if r.id in blocks then blocks[r.id] else [];
    g[r.drive := blocks[r.id := entries + [r.entry]]]
  }

  /** Grouping the rows: a drive is indexed iff it has a row, and every block finds its entries. */
  method GroupRows(rows: seq<AtlasRow>) returns (g: Grouped)
    ensures forall d :: d in g <==> Indexed(rows, d)
    ensures forall d, id :: Get(g, d, id) == EntriesFor(rows, d, id)
    ensures forall d, id :: d in g && id in g[d] ==> g[d][id] != []
  {
    g := map[];
    for n := 0 to |rows|
      invariant forall d :: d in g <==> Indexed(rows[..n], d)
      invariant forall d, id :: Get(g, d, id) == EntriesFor(rows[..n], d, id)
      invariant forall d, id :: d in g && id in g[d] ==> g[d][id] != []
    {
      forall d ensures d in AddRow(g, rows[n]) <==> Indexed(rows[..n + 1], d) {
        AddRowIndexed(g, rows, n, d);
      }
      forall d, id ensures Get(AddRow(g, rows[n]), d, id) == EntriesFor(rows[..n + 1], d, id) {
        AddRowEntries(g, rows, n, d, id);
      }
      g := AddRow(g, rows[n]);
    }
    assert rows[..|rows|] == rows;
  }

  lemma AddRowIndexed(g: Grouped, rows: seq<AtlasRow>, n: nat, d: string)
    requires n < |rows| && (d in g <==> Indexed(rows[..n], d))
    ensures d in AddRow(g, rows[n]) <==> Indexed(rows[..n + 1], d)
  {
    if Indexed(rows[..n], d) {
      var i :| 0 <= i < n && rows[..n][i].drive == d;
      assert rows[..n + 1][i].drive == d;
    }
    if Indexed(rows[..n + 1], d) {
      var i :| 0 <= i < n + 1 && rows[..n + 1][i].drive == d;
      assert i < n ==> rows[..n][i].drive == d;
    }
    assert rows[..n + 1][n] == rows[n];
  }

  lemma AddRowEntries(g: Grouped, rows: seq<AtlasRow>, n: nat, d: string, id: int)
    requires n < |rows| && Get(g, d, id) == EntriesFor(rows[..n], d, id)
    ensures Get(AddRow(g, rows[n]), d, id) == EntriesFor(rows[..n + 1], d, id)
  {
    assert rows[..n + 1][..n] == rows[..n];
    assert Get(g, d, id) + [] == Get(g, d, id);
  }

  // ---------------------------------------------------------------- the sorted index

  ghost predicate Ascending(s: seq<int>) {
    forall i, j :: 0 <= i < j < |s| ==> s[i] < s[j]
  }

  /** The index of one drive: block ids in ascending order, and their entries. */
  datatype Index = Index(ids: seq<int>, items: seq<seq<Entry>>)

  ghost predicate IndexOf(ix: Index, m: map<int, seq<Entry>>) {
    && Ascending(ix.ids) && |ix.items| == |ix.ids|
    && (forall x :: x in ix.ids <==> x in m)
    && (forall i :: 0 <= i < |ix.ids| ==> ix.items[i] == m[ix.ids[i]])
  }

  method Least(s: set<int>) returns (m: int)
    requires s != {}
    ensures m in s && forall x :: x in s ==> m <= x
  {
    ghost var w := Member(s);
    m :| m in s;
    var left := s - {m};
    while left != {}
      invariant left <= s && m in s && forall x :: x in s && x !in left ==> m <= x
    {
      w := Member(left);
      var x :| x in left;
      left := left - {x};
      if x < m { m := x; }
    }
  }

  /** `sorted` on the block ids of a drive, with the entries carried along. */
  method BuildIndex(m: map<int, seq<Entry>>) returns (ix: Index)
    ensures IndexOf(ix, m)
  {
    var ids, items: seq<seq<Entry>> := [], [];
    var left := m.Keys;
    while left != {}
      invariant left <= m.Keys && Ascending(ids) && |items| == |ids|
      invariant forall x :: x in ids <==> x in m && x !in left
      invariant forall i, x :: 0 <= i < |ids| && x in left ==> ids[i] < x
      invariant forall i :: 0 <= i < |ids| ==> ids[i] in m && items[i] == m[ids[i]]
    {
      var x := Least(left);
      left := left - {x};
      ids, items := ids + [x], items + [m[x]];
    }
    ix := Index(ids, items);
  }

  /** `lookup_entries`: bisect_left, then compare; on an index it is lookup in the grouped map. */
  method LookupEntries(ix: Index, id: int, ghost m: map<int, seq<Entry>>) returns (r: seq<Entry>)
    requires IndexOf(ix, m)
    ensures r == if id in m then m[id] else []
  {
    var lo, hi := 0, |ix.ids|;
    while lo < hi
      invariant 0 <= lo <= hi <= |ix.ids|
      invariant forall i :: 0 <= i < lo ==> ix.ids[i] < id
      invariant forall i :: hi <= i < |ix.ids| ==> id <= ix.ids[i]
    {
      var mid := (lo + hi) / 2;
      if ix.ids[mid] < id { lo := mid + 1; } else { hi := mid; }
    }
    if lo < |ix.ids| && ix.ids[lo] == id { return ix.items[lo]; }
    return [];
  }

  // ---------------------------------------------------------------- class totals

  function Kinds(es: seq<Entry>): set<string> { set i | 0 <= i < |es| :: es[i].kind }

  type Totals = map<(string, string), nat>

  function TotalOf(t: Totals, drive: string, kind: string): nat {
    if (drive, kind) in t then t[(drive, kind)] else 0
  }

  function Value(n: nat): nat { n }

  /** One block of a class is one more for that class. */
  function HasKind(g: Grouped, drive: string, kind: string): Block -> nat {
    (b: Block) => if b.drive == drive && kind in Kinds(Get(g, b.drive, b.id)) then 1 else 0
  }

  predicate Unmapped(g: Grouped, b: Block) { b.drive in g && Get(g, b.drive, b.id) == [] }

  /** The unmapped ones of some blocks, in order. */
  function UnmappedOf(g: Grouped, blocks: seq<Block>): seq<Block> {
    if blocks == [] then [] else
      var b := blocks[|blocks| - 1];
      UnmappedOf(g, blocks[..|blocks| - 1]) + if Unmapped(g, b) then [b] else []
  }

  lemma {:induction false} UnmappedMember(g: Grouped, blocks: seq<Block>, b: Block)
    ensures b in UnmappedOf(g, blocks) <==> b in blocks && Unmapped(g, b)
  {
    if blocks != [] {
      var m := |blocks| - 1;
      UnmappedMember(g, blocks[..m], b);
      assert blocks == blocks[..m] + [blocks[m]];
    }
  }

  /** What a block adds to the totals: one per distinct class, or one unmapped row. */
  function Weight(g: Grouped): Block -> nat {
    (b: Block) =>
      if b.drive !in g then 0 else if Get(g, b.drive, b.id) == [] then 1 else |Kinds(Get(g, b.drive, b.id))|
  }

  function OnIndexed(g: Grouped): Block -> nat {
    (b: Block) => if b.drive in g then 1 else 0
  }

  /** The loop over `class_seen`, in whatever order the set yields. */
  method CountKinds(t0: Totals, drive: string, kinds: set<string>) returns (t: Totals)
    ensures forall d, k :: TotalOf(t, d, k) == TotalOf(t0, d, k) + if d == drive && k in kinds then 1 else 0
    ensures SumMap(Value, t) == SumMap(Value, t0) + |kinds|
  {
    t := t0;
    var left := kinds;
    while left != {}
      invariant left <= kinds
      invariant forall d, k :: TotalOf(t, d, k) == TotalOf(t0, d, k) + if d == drive && k in kinds - left then 1 else 0
      invariant SumMap(Value, t) == SumMap(Value, t0) + |kinds| - |left|
    {
      var kind :| kind in left;
      SumMapUpdate<(string, string), nat>(Value, t, (drive, kind), TotalOf(t, drive, kind) + 1);
      t := t[(drive, kind) := TotalOf(t, drive, kind) + 1];
      left := left - {kind};
    }
  }

  /** A row for a mapped block: the block with one of its entries. */
  datatype BlockRow = BlockRow(block: Block, entry: Entry)

  function RowsOf(b: Block, es: seq<Entry>): seq<BlockRow> {
    seq(|es|, i requires 0 <= i < |es| => BlockRow(b, es[i]))
  }

  /** One row per block and entry, blocks in order, entries in file order. */
  function BlockRows(g: Grouped, blocks: seq<Block>): seq<BlockRow> {
    if blocks == [] then [] else
      var b := blocks[|blocks| - 1];
      BlockRows(g, blocks[..|blocks| - 1]) + RowsOf(b, Get(g, b.drive, b.id))
  }

  lemma {:induction false} BlockRowsMember(g: Grouped, blocks: seq<Block>, r: BlockRow)
    ensures r in BlockRows(g, blocks) <==> r.block in blocks && r.entry in Get(g, r.block.drive, r.block.id)
  {
    if blocks != [] {
      var m := |blocks| - 1;
      BlockRowsMember(g, blocks[..m], r);
      RowsOfMember(blocks[m], Get(g, blocks[m].drive, blocks[m].id), r);
      assert blocks == blocks[..m] + [blocks[m]];
    }
  }

  lemma RowsOfMember(b: Block, es: seq<Entry>, r: BlockRow)
    ensures r in RowsOf(b, es) <==> r.block == b && r.entry in es
  {
    if r.block == b && r.entry in es {
      var i :| 0 <= i < |es| && es[i] == r.entry;
      assert RowsOf(b, es)[i] == r;
    }
  }

  /** The loop over the entries of one block. */
  method EntryRows(b: Block, entries: seq<Entry>) returns (rows: seq<BlockRow>, kinds: set<string>)
    ensures rows == RowsOf(b, entries) && kinds == Kinds(entries)
  {
    rows, kinds := [], {};
    for n := 0 to |entries|
      invariant rows == RowsOf(b, entries[..n]) && kinds == Kinds(entries[..n])
    {
      assert entries[..n + 1] == entries[..n] + [entries[n]];
      assert RowsOf(b, entries[..n + 1]) == RowsOf(b, entries[..n]) + [BlockRow(b, entries[n])];
      KindsAppend(entries[..n], entries[n]);
      rows := rows + [BlockRow(b, entries[n])];
      kinds := kinds + {entries[n].kind};
    }
    assert entries[..|entries|] == entries;
  }

  lemma KindsAppend(es: seq<Entry>, e: Entry)
    ensures Kinds(es + [e]) == Kinds(es) + {e.kind}
  {
    var t := es + [e];
    assert t[|es|] == e;
    forall k | k in Kinds(es) ensures k in Kinds(t) {
      var i :| 0 <= i < |es| && es[i].kind == k;
      assert t[i].kind == k;
    }
  }

  /** What the attribution of some blocks has to show. */
  ghost predicate Attributed(
    g: Grouped, blocks: seq<Block>, rows: seq<BlockRow>, unmapped: seq<Block>, totals: Totals)
  {
    && rows == BlockRows(g, blocks)
    && unmapped == UnmappedOf(g, blocks)
    && (forall d, k :: TotalOf(totals, d, k) == SumBy(HasKind(g, d, k), blocks))
    && SumMap(Value, totals) + |unmapped| == SumBy(Weight(g), blocks)
  }

  /** What one block adds. */
  ghost predicate Adds(g: Grouped, b: Block, rows: seq<BlockRow>, unmapped: seq<Block>, t: Totals, t': Totals) {
    && rows == RowsOf(b, Get(g, b.drive, b.id))
    && unmapped == (if Unmapped(g, b) then [b] else [])
    && (forall d, k :: TotalOf(t', d, k) == TotalOf(t, d, k) + HasKind(g, d, k)(b))
    && SumMap(Value, t') + |unmapped| == SumMap(Value, t) + Weight(g)(b)
  }

  lemma AttributedGrows(g: Grouped, blocks: seq<Block>, b: Block, rows: seq<BlockRow>, more: seq<BlockRow>,
                        unmapped: seq<Block>, extra: seq<Block>, t: Totals, t': Totals)
    requires Attributed(g, blocks, rows, unmapped, t) && Adds(g, b, more, extra, t, t')
    ensures Attributed(g, blocks + [b], rows + more, unmapped + extra, t')
  {
    assert (blocks + [b])[..|blocks|] == blocks;
    SumByAppend(Weight(g), blocks, b);
    forall d, k ensures TotalOf(t', d, k) == SumBy(HasKind(g, d, k), blocks + [b]) {
      SumByAppend(HasKind(g, d, k), blocks, b);
    }
  }

  /** The body of the attribution loop. */
  method AttributeBlock(indexes: map<string, Index>, b: Block, t: Totals, ghost g: Grouped)
    returns (rows: seq<BlockRow>, unmapped: seq<Block>, t': Totals)
    requires indexes.Keys == g.Keys && forall d :: d in g ==> IndexOf(indexes[d], g[d])
    ensures Adds(g, b, rows, unmapped, t, t')
  {
    rows, unmapped, t' := [], [], t;
    if b.drive in indexes {
      var entries := LookupEntries(indexes[b.drive], b.id, g[b.drive]);
      if entries == [] {
        unmapped := [b];
      } else {
        var kinds;
        rows, kinds := EntryRows(b, entries);
        t' := CountKinds(t, b.drive, kinds);
      }
    }
  }

  /** The attribution loop over first-read blocks: a row per entry, which blocks are unmapped, how
      many blocks each class gets, and what all of it adds up to. */
  method Attribute(indexes: map<string, Index>, blocks: seq<Block>, ghost g: Grouped)
    returns (rows: seq<BlockRow>, unmapped: seq<Block>, totals: Totals)
    requires indexes.Keys == g.Keys && forall d :: d in g ==> IndexOf(indexes[d], g[d])
    ensures Attributed(g, blocks, rows, unmapped, totals)
  {
    rows, unmapped, totals := [], [], map[];
    for n := 0 to |blocks|
      invariant Attributed(g, blocks[..n], rows, unmapped, totals)
    {
      assert blocks[..n + 1] == blocks[..n] + [blocks[n]];
      var more, extra, next := AttributeBlock(indexes, blocks[n], totals, g);
      AttributedGrows(g, blocks[..n], blocks[n], rows, more, unmapped, extra, totals, next);
      rows, unmapped, totals := rows + more, unmapped + extra, next;
    }
    assert blocks[..|blocks|] == blocks;
  }

  /** Class totals plus unmapped rows equal the number of blocks on indexed drives exactly when every
      mapped block has a single class; one atlas entry per block is a special case. */
  lemma {:induction false} TotalsAddUpIff(g: Grouped, blocks: seq<Block>)
    ensures SumBy(Weight(g), blocks) >= SumBy(OnIndexed(g), blocks)
    ensures SumBy(Weight(g), blocks) == SumBy(OnIndexed(g), blocks) <==>
      forall i :: 0 <= i < |blocks| ==> |Kinds(Get(g, blocks[i].drive, blocks[i].id))| <= 1
  {
    if blocks != [] {
      var m := |blocks| - 1;
      TotalsAddUpIff(g, blocks[..m]);
      assert forall i :: 0 <= i < m ==> blocks[..m][i] == blocks[i];
      var es := Get(g, blocks[m].drive, blocks[m].id);
      if es != [] { assert es[0].kind in Kinds(es); }
    }
  }

  // ---------------------------------------------------------------- a whole trace

  /** `load_block_indexes` after grouping: one sorted index per drive. */
  method BuildIndexes(g: Grouped) returns (indexes: map<string, Index>)
    ensures indexes.Keys == g.Keys && forall d :: d in g ==> IndexOf(indexes[d], g[d])
  {
    indexes := map[];
    var left := g.Keys;
    while left != {}
      invariant left <= g.Keys && indexes.Keys == g.Keys - left
      invariant forall d :: d in indexes ==> IndexOf(indexes[d], g[d])
    {
      var d :| d in left;
      var ix := BuildIndex(g[d]);
      indexes := indexes[d := ix];
      left := left - {d};
    }
  }

  ghost function Picked(s: seq<Block>, w: Block -> nat): set<Block> { set b | b in s && w(b) == 1 }

  lemma PickedAppend(s: seq<Block>, x: Block, w: Block -> nat)
    requires x !in s
    ensures |Picked(s + [x], w)| == |Picked(s, w)| + if w(x) == 1 then 1 else 0
  {
    assert Picked(s + [x], w) == Picked(s, w) + if w(x) == 1 then {x} else {};
  }

  lemma {:induction false} CountDistinct(s: seq<Block>, w: Block -> nat)
    requires (forall b :: w(b) <= 1) && forall i, j :: 0 <= i < j < |s| ==> s[i] != s[j]
    ensures SumBy(w, s) == |Picked(s, w)|
  {
    if s != [] {
      var m := |s| - 1;
      CountDistinct(s[..m], w);
      PickedAppend(s[..m], s[m], w);
      assert s == s[..m] + [s[m]];
    }
  }

  /** The distinct blocks that a trace reads on drives the atlas knows. */
  ghost function ReadOnAtlas(ls: seq<Line>, blockSize: int, atlas: seq<AtlasRow>): set<Block>
    requires blockSize > 0
  {
    set b | b in AllFile(ls, blockSize) && Indexed(atlas, b.drive)
  }

  lemma OnIndexedCount(ls: seq<Line>, blockSize: int, atlas: seq<AtlasRow>, g: Grouped)
    requires blockSize > 0 && forall d :: d in g <==> Indexed(atlas, d)
    ensures SumBy(OnIndexed(g), FirstTouch(AllFile(ls, blockSize))) == |ReadOnAtlas(ls, blockSize, atlas)|
  {
    var items, w := AllFile(ls, blockSize), OnIndexed(g);
    FirstTouchFacts(items, 0);
    CountDistinct(FirstTouch(items), w);
    assert Picked(FirstTouch(items), w) == ReadOnAtlas(ls, blockSize, atlas);
  }

  lemma SingleClasses(ls: seq<Line>, blockSize: int, atlas: seq<AtlasRow>, g: Grouped)
    requires blockSize > 0 && forall d, id :: Get(g, d, id) == EntriesFor(atlas, d, id)
    ensures var blocks := FirstTouch(AllFile(ls, blockSize));
      (forall i :: 0 <= i < |blocks| ==> |Kinds(Get(g, blocks[i].drive, blocks[i].id))| <= 1) <==>
      (forall b :: b in AllFile(ls, blockSize) ==> |Kinds(EntriesFor(atlas, b.drive, b.id))| <= 1)
  {
    FirstTouchFacts(AllFile(ls, blockSize), 0);
    var blocks := FirstTouch(AllFile(ls, blockSize));
    if forall i :: 0 <= i < |blocks| ==> |Kinds(Get(g, blocks[i].drive, blocks[i].id))| <= 1 {
      forall b | b in AllFile(ls, blockSize) ensures |Kinds(EntriesFor(atlas, b.drive, b.id))| <= 1 {
        var i :| 0 <= i < |blocks| && blocks[i] == b;
      }
    }
  }

  /** The whole attribution of a trace: class totals and unmapped rows together are at least the
      distinct blocks read on indexed drives, and exactly that many if and only if no block read has
      entries of two classes. */
  method AttributeTrace(ls: seq<Line>, blockSize: int, atlas: seq<AtlasRow>)
    returns (rows: seq<BlockRow>, unmapped: seq<Block>, totals: Totals)
    requires blockSize > 0
    ensures SumMap(Value, totals) + |unmapped| >= |ReadOnAtlas(ls, blockSize, atlas)|
    ensures SumMap(Value, totals) + |unmapped| == |ReadOnAtlas(ls, blockSize, atlas)| <==>
      forall b :: b in AllFile(ls, blockSize) ==> |Kinds(EntriesFor(atlas, b.drive, b.id))| <= 1
    ensures forall b :: b in unmapped <==>
      b in ReadOnAtlas(ls, blockSize, atlas) && EntriesFor(atlas, b.drive, b.id) == []
    ensures forall r :: r in rows <==>
      r.block in AllFile(ls, blockSize) && r.entry in EntriesFor(atlas, r.block.drive, r.block.id)
  {
    var g := GroupRows(atlas);
    var indexes := BuildIndexes(g);
    var blocks := CollectFile(ls, blockSize);
    rows, unmapped, totals := Attribute(indexes, blocks, g);
    TotalsAddUpIff(g, blocks);
    OnIndexedCount(ls, blockSize, atlas, g);
    SingleClasses(ls, blockSize, atlas, g);
    FirstTouchFacts(AllFile(ls, blockSize), 0);
    forall b ensures b in unmapped <==> b in blocks && Unmapped(g, b) { UnmappedMember(g, blocks, b); }
    forall r
      ensures r in rows <==>
        r.block in AllFile(ls, blockSize) && r.entry in EntriesFor(atlas, r.block.drive, r.block.id)
    {
      BlockRowsMember(g, blocks, r);
    }
  }
}
