/** The two trace collectors: first reads per drive, and their attribution through a block atlas. */
module FirstReads {
  import opened Common

  /** A trace line that splits into five fields; a field that `int` rejects is None. Lines with any
      other number of fields are Malformed. */
  datatype Line =
    | Malformed
    | Fields(timestamp: Option<int>, drive: string, op: string, offset: Option<int>, length: Option<int>)

  datatype Block = Block(drive: string, id: int)

  predicate Lower(drive: string) { drive == "rootfs" || drive == "workspace" }

  /** A read whose offset and length make sense. */
  predicate ValidRead(l: Line) {
    l.Fields? && l.op == "read" && l.offset.Some? && l.length.Some? && l.length.value > 0
  }

  /** Blocks first..last of a drive, in order. */
  function Span(drive: string, first: int, last: int): seq<Block>
    decreases last - first + 1
  {
    if last < first then [] else Span(drive, first, last - 1) + [Block(drive, last)]
  }

  function BlocksOf(l: Line, blockSize: int): seq<Block>
    requires ValidRead(l) && blockSize > 0
  {
    Span(l.drive, l.offset.value / blockSize, (l.offset.value + l.length.value - 1) / blockSize)
  }

  /** Blocks a line contributes to collect_first_read_blocks: lower drives only. */
  function FirstItems(l: Line, blockSize: int): seq<Block>
    requires blockSize > 0
  {
    if ValidRead(l) && Lower(l.drive) then BlocksOf(l, blockSize) else []
  }

  /** Blocks a line contributes to collect_file_reads: every drive, but the timestamp must parse. */
  function FileItems(l: Line, blockSize: int): seq<Block>
    requires blockSize > 0
  {
    if ValidRead(l) && l.timestamp.Some? then BlocksOf(l, blockSize) else []
  }

  function AllFirst(ls: seq<Line>, blockSize: int): seq<Block>
    requires blockSize > 0
  {
    if ls == [] then [] else AllFirst(ls[..|ls| - 1], blockSize) + FirstItems(ls[|ls| - 1], blockSize)
  }

  function AllFile(ls: seq<Line>, blockSize: int): seq<Block>
    requires blockSize > 0
  {
    if ls == [] then [] else AllFile(ls[..|ls| - 1], blockSize) + FileItems(ls[|ls| - 1], blockSize)
  }

  // ---------------------------------------------------------------- which blocks a read touches

  /** Some byte of the read lies in the block. */
  ghost predicate ReadsFrom(l: Line, blockSize: int, b: Block)
    requires ValidRead(l) && blockSize > 0
  {
    && b.drive == l.drive
    && exists x :: l.offset.value <= x < l.offset.value + l.length.value && InBlock(x, blockSize, b.id)
  }

  /** Byte x of a drive lies in block id. */
  predicate InBlock(x: int, blockSize: int, id: int)
    requires blockSize > 0
  {
    id * blockSize <= x < (id + 1) * blockSize
  }

  lemma {:induction false} SpanMember(drive: string, first: int, last: int, b: Block)
    ensures b in Span(drive, first, last) <==> b.drive == drive && first <= b.id <= last
    decreases last - first + 1
  {
    if first <= last { SpanMember(drive, first, last - 1, b); }
  }

  lemma {:induction false} SpanAscends(drive: string, first: int, last: int)
    ensures forall i, j :: 0 <= i < j < |Span(drive, first, last)| ==>
      Span(drive, first, last)[i].id < Span(drive, first, last)[j].id
    decreases last - first + 1
  {
    if first <= last {
      SpanAscends(drive, first, last - 1);
      var s := Span(drive, first, last - 1);
      forall i | 0 <= i < |s| ensures s[i].id < last {
        assert s[i] in s;
        SpanMember(drive, first, last - 1, s[i]);
      }
    }
  }

  lemma Scaled(m: int, n: int, unit: int)
    requires m <= n && unit > 0
    ensures m * unit <= n * unit
  {
    assert n * unit == m * unit + (n - m) * unit;
  }

  lemma QuotientBlock(x: int, blockSize: int)
    requires blockSize > 0
    ensures InBlock(x, blockSize, x / blockSize)
  {
    var q, m := x / blockSize, x % blockSize;
    assert x == blockSize * q + m;
    assert (q + 1) * blockSize == q * blockSize + blockSize;
  }

  /** A byte of a later block comes after every byte of an earlier one. */
  lemma BlocksInOrder(x: int, a: int, y: int, b: int, blockSize: int)
    requires blockSize > 0 && InBlock(x, blockSize, a) && InBlock(y, blockSize, b)
    ensures x <= y ==> a <= b
    ensures a < b ==> x < y
  {
    if b < a { Scaled(b + 1, a, blockSize); }
    if a < b { Scaled(a + 1, b, blockSize); }
  }

  /** A read touches exactly the blocks that hold one of its bytes, each once, in ascending order. */
  lemma BlocksAreTouched(l: Line, blockSize: int, b: Block)
    requires ValidRead(l) && blockSize > 0
    ensures b in BlocksOf(l, blockSize) <==> ReadsFrom(l, blockSize, b)
    ensures var s := BlocksOf(l, blockSize); forall i, j :: 0 <= i < j < |s| ==> s[i].id < s[j].id
  {
    var lo, hi := l.offset.value, l.offset.value + l.length.value - 1;
    var first, last := lo / blockSize, hi / blockSize;
    SpanMember(l.drive, first, last, b);
    SpanAscends(l.drive, first, last);
    QuotientBlock(lo, blockSize);
    QuotientBlock(hi, blockSize);
    if b in BlocksOf(l, blockSize) {
      if b.id == first {
        assert InBlock(lo, blockSize, b.id);
      } else {
        assert InBlock(b.id * blockSize, blockSize, b.id) by {
          assert (b.id + 1) * blockSize == b.id * blockSize + blockSize;
        }
        BlocksInOrder(lo, first, b.id * blockSize, b.id, blockSize);
        Scaled(b.id, last, blockSize);
      }
    }
    if ReadsFrom(l, blockSize, b) {
      var x :| l.offset.value <= x < l.offset.value + l.length.value && InBlock(x, blockSize, b.id);
      BlocksInOrder(lo, first, x, b.id, blockSize);
      BlocksInOrder(x, b.id, hi, last, blockSize);
    }
  }

  /** Some read of the trace that this collector goes by touches the block. */
  ghost predicate ReadInTrace(ls: seq<Line>, blockSize: int, b: Block, counts: Line -> bool)
    requires blockSize > 0
  {
    exists n :: 0 <= n < |ls| && ValidRead(ls[n]) && counts(ls[n]) && ReadsFrom(ls[n], blockSize, b)
  }

  predicate OnLowerDrive(l: Line) { l.Fields? && (l.drive == "rootfs" || l.drive == "workspace") }
  predicate Timestamped(l: Line) { l.Fields? && l.timestamp.Some? }

  lemma ReadInLonger(ls: seq<Line>, blockSize: int, b: Block, counts: Line -> bool)
    requires blockSize > 0 && ls != []
    ensures var m := |ls| - 1;
      ReadInTrace(ls, blockSize, b, counts) <==>
        ReadInTrace(ls[..m], blockSize, b, counts)
        || (ValidRead(ls[m]) && counts(ls[m]) && ReadsFrom(ls[m], blockSize, b))
  {
    var m := |ls| - 1;
    if ReadInTrace(ls[..m], blockSize, b, counts) {
      var n :| 0 <= n < m && ValidRead(ls[..m][n]) && counts(ls[..m][n]) && ReadsFrom(ls[..m][n], blockSize, b);
      assert ls[n] == ls[..m][n];
    }
    if ReadInTrace(ls, blockSize, b, counts) {
      var n :| 0 <= n < |ls| && ValidRead(ls[n]) && counts(ls[n]) && ReadsFrom(ls[n], blockSize, b);
      assert n < m ==> ls[..m][n] == ls[n];
    }
  }

  lemma {:induction false} AllFirstMember(ls: seq<Line>, blockSize: int, b: Block)
    requires blockSize > 0
    ensures b in AllFirst(ls, blockSize) <==> ReadInTrace(ls, blockSize, b, OnLowerDrive)
  {
    if ls != [] {
      var m := |ls| - 1;
      AllFirstMember(ls[..m], blockSize, b);
      ReadInLonger(ls, blockSize, b, OnLowerDrive);
      if ValidRead(ls[m]) { BlocksAreTouched(ls[m], blockSize, b); }
    }
  }

  lemma {:induction false} AllFileMember(ls: seq<Line>, blockSize: int, b: Block)
    requires blockSize > 0
    ensures b in AllFile(ls, blockSize) <==> ReadInTrace(ls, blockSize, b, Timestamped)
  {
    if ls != [] {
      var m := |ls| - 1;
      AllFileMember(ls[..m], blockSize, b);
      ReadInLonger(ls, blockSize, b, Timestamped);
      if ValidRead(ls[m]) { BlocksAreTouched(ls[m], blockSize, b); }
    }
  }

  // ---------------------------------------------------------------- first touches

  /** Each element at its first occurrence. */
  function FirstTouch<T(==)>(s: seq<T>): seq<T> {
    if s == [] then [] else
      var r := FirstTouch(s[..|s| - 1]);
      if s[|s| - 1] in r then r else r + [s[|s| - 1]]
  }

  /** First touches: the same elements, once each, and a longer trace only adds to the end. */
  lemma {:induction false} FirstTouchFacts<T>(s: seq<T>, n: nat)
    requires n <= |s|
    ensures forall x :: x in s <==> x in FirstTouch(s)
    ensures forall i, j :: 0 <= i < j < |FirstTouch(s)| ==> FirstTouch(s)[i] != FirstTouch(s)[j]
    ensures FirstTouch(s[..n]) <= FirstTouch(s)
  {
    if s != [] {
      var m := |s| - 1;
      FirstTouchFacts(s[..m], if n <= m then n else m);
      assert s == s[..m] + [s[m]];
      if n <= m { assert s[..m][..n] == s[..n]; } else { assert s[..n] == s; }
    }
  }

  lemma FirstTouchAppend<T>(s: seq<T>, x: T)
    ensures FirstTouch(s + [x]) == if x in FirstTouch(s) then FirstTouch(s) else FirstTouch(s) + [x]
  {
    assert (s + [x])[..|s|] == s;
  }

  /** What comes after depends on the first touches so far, not on how they came about. */
  lemma {:induction false} FirstTouchExtend<T>(a: seq<T>, b: seq<T>, k: seq<T>)
    requires FirstTouch(a) == FirstTouch(b)
    ensures FirstTouch(a + k) == FirstTouch(b + k)
  {
    if k == [] {
      assert a + k == a && b + k == b;
    } else {
      var m := |k| - 1;
      FirstTouchExtend(a, b, k[..m]);
      FirstTouchAppend(a + k[..m], k[m]);
      FirstTouchAppend(b + k[..m], k[m]);
      ConcatLast(a, k);
      ConcatLast(b, k);
    }
  }

  /** Touching only what was touched before changes nothing. */
  lemma {:induction false} FirstTouchAgain<T>(a: seq<T>, k: seq<T>)
    requires forall x :: x in k ==> x in a
    ensures FirstTouch(a + k) == FirstTouch(a)
  {
    if k == [] {
      assert a + k == a;
    } else {
      var m := |k| - 1;
      FirstTouchAgain(a, k[..m]);
      FirstTouchAppend(a + k[..m], k[m]);
      ConcatLast(a, k);
      FirstTouchFacts(a, 0);
      assert k[m] in a;
    }
  }

  // ---------------------------------------------------------------- the collectors, as written

  /** `iter_blocks`: the blocks collect_first_read_blocks reports. */
  method CollectFirst(ls: seq<Line>, blockSize: int) returns (out: seq<Block>)
    requires blockSize > 0
    ensures out == FirstTouch(AllFirst(ls, blockSize))
    ensures forall b :: b in out <==> ReadInTrace(ls, blockSize, b, OnLowerDrive)
  {
    var seen: set<Block> := {};
    out := [];
    ghost var items: seq<Block> := [];
    for n := 0 to |ls|
      invariant items == AllFirst(ls[..n], blockSize) && out == FirstTouch(items)
      invariant forall b :: b in seen <==> b in out
    {
      var l := ls[n];
      assert ls[..n + 1][..n] == ls[..n];
      if ValidRead(l) && Lower(l.drive) {
        out, seen := ScanSpan(out, seen, l.drive, l.offset.value / blockSize,
                              (l.offset.value + l.length.value - 1) / blockSize, items);
      } else {
        assert items + [] == items;
      }
      items := items + FirstItems(l, blockSize);
    }
    assert ls[..|ls|] == ls;
    FirstTouchFacts(items, 0);
    forall b ensures b in out <==> ReadInTrace(ls, blockSize, b, OnLowerDrive) { AllFirstMember(ls, blockSize, b); }
  }

  /** The loop over one read's blocks, which both collectors share. */
  method ScanSpan(out0: seq<Block>, seen0: set<Block>, drive: string, first: int, last: int,
                  ghost items: seq<Block>)
    returns (out: seq<Block>, seen: set<Block>)
    requires out0 == FirstTouch(items) && forall b :: b in seen0 <==> b in out0
    ensures out == FirstTouch(items + Span(drive, first, last)) && forall b :: b in seen <==> b in out
  {
    out, seen := out0, seen0;
    var id := first;
    assert items + Span(drive, first, first - 1) == items;
    while id <= last
      invariant first <= id && (id <= last + 1 || id == first)
      invariant out == FirstTouch(items + Span(drive, first, id - 1)) && forall b :: b in seen <==> b in out
      decreases last - id + 1
    {
      FirstTouchAppend(items + Span(drive, first, id - 1), Block(drive, id));
      assert items + Span(drive, first, id) == items + Span(drive, first, id - 1) + [Block(drive, id)];
      if Block(drive, id) !in seen {
        seen := seen + {Block(drive, id)};
        out := out + [Block(drive, id)];
      }
      id := id + 1;
    }
    if last < first { assert Span(drive, first, last) == []; }
  }

  /** `iter_read_blocks` behind `seen_blocks`: the blocks collect_file_reads attributes. */
  method CollectFile(ls: seq<Line>, blockSize: int) returns (out: seq<Block>)
    requires blockSize > 0
    ensures out == FirstTouch(AllFile(ls, blockSize))
    ensures forall b :: b in out <==> ReadInTrace(ls, blockSize, b, Timestamped)
  {
    var seen: set<Block> := {};
    out := [];
    ghost var items: seq<Block> := [];
    for n := 0 to |ls|
      invariant items == AllFile(ls[..n], blockSize) && out == FirstTouch(items)
      invariant forall b :: b in seen <==> b in out
    {
      var l := ls[n];
      assert ls[..n + 1][..n] == ls[..n];
      if ValidRead(l) && l.timestamp.Some? {
        out, seen := ScanSpan(out, seen, l.drive, l.offset.value / blockSize,
                              (l.offset.value + l.length.value - 1) / blockSize, items);
      } else {
        assert items + [] == items;
      }
      items := items + FileItems(l, blockSize);
    }
    assert ls[..|ls|] == ls;
    FirstTouchFacts(items, 0);
    forall b ensures b in out <==> ReadInTrace(ls, blockSize, b, Timestamped) { AllFileMember(ls, blockSize, b); }
  }

  // ---------------------------------------------------------------- agreement

  function OnLower(s: seq<Block>): seq<Block> {
    if s == [] then [] else
      OnLower(s[..|s| - 1]) + if Lower(s[|s| - 1].drive) then [s[|s| - 1]] else []
  }

  lemma {:induction false} OnLowerConcat(a: seq<Block>, b: seq<Block>)
    ensures OnLower(a + b) == OnLower(a) + OnLower(b)
  {
    if b == [] {
      assert a + b == a;
    } else {
      var m := |b| - 1;
      OnLowerConcat(a, b[..m]);
      assert (a + b)[..|a + b| - 1] == a + b[..m];
    }
  }

  lemma {:induction false} OnLowerSpan(drive: string, first: int, last: int)
    ensures OnLower(Span(drive, first, last)) == if Lower(drive) then Span(drive, first, last) else []
    decreases last - first + 1
  {
    if first <= last {
      OnLowerSpan(drive, first, last - 1);
      var s := Span(drive, first, last);
      assert s[..|s| - 1] == Span(drive, first, last - 1);
    }
  }

  lemma OnLowerAppend(s: seq<Block>, b: Block)
    ensures OnLower(s + [b]) == if Lower(b.drive) then OnLower(s) + [b] else OnLower(s)
  {
    assert (s + [b])[..|s|] == s;
    assert OnLower(s) + [] == OnLower(s);
  }

  /** Dropping the other drives commutes with taking first touches. */
  lemma {:induction false} OnLowerFirstTouch(s: seq<Block>)
    ensures OnLower(FirstTouch(s)) == FirstTouch(OnLower(s))
  {
    if s != [] {
      var m := |s| - 1;
      var t, x := s[..m], s[m];
      assert s == t + [x];
      OnLowerFirstTouch(t);
      OnLowerMember(FirstTouch(t), x);
      OnLowerAppend(t, x);
      OnLowerAppend(FirstTouch(t), x);
      FirstTouchAppend(t, x);
      if Lower(x.drive) { FirstTouchAppend(OnLower(t), x); }
    }
  }

  lemma {:induction false} OnLowerMember(s: seq<Block>, b: Block)
    ensures b in OnLower(s) <==> b in s && Lower(b.drive)
  {
    if s != [] { OnLowerMember(s[..|s| - 1], b); }
  }

  predicate BadTimestamp(l: Line) { ValidRead(l) && Lower(l.drive) && l.timestamp.None? }

  /** What collect_file_reads sees of the lower drives is the other collector's view minus the
      lines whose timestamp does not parse. */
  lemma LowerItems(l: Line, blockSize: int)
    requires blockSize > 0
    ensures OnLower(FileItems(l, blockSize)) == if BadTimestamp(l) then [] else FirstItems(l, blockSize)
  {
    if ValidRead(l) {
      OnLowerSpan(l.drive, l.offset.value / blockSize, (l.offset.value + l.length.value - 1) / blockSize);
    }
  }

  function LowerFile(ls: seq<Line>, blockSize: int): seq<Block>
    requires blockSize > 0
  {
    OnLower(AllFile(ls, blockSize))
  }

  lemma ExtendTrace(ls: seq<Line>, blockSize: int, n: nat)
    requires blockSize > 0 && n < |ls|
    ensures AllFirst(ls[..n + 1], blockSize) == AllFirst(ls[..n], blockSize) + FirstItems(ls[n], blockSize)
    ensures LowerFile(ls[..n + 1], blockSize)
         == LowerFile(ls[..n], blockSize) + if BadTimestamp(ls[n]) then [] else FirstItems(ls[n], blockSize)
  {
    assert ls[..n + 1][..n] == ls[..n];
    OnLowerConcat(AllFile(ls[..n], blockSize), FileItems(ls[n], blockSize));
    LowerItems(ls[n], blockSize);
  }

  ghost predicate AgreeAt(ls: seq<Line>, blockSize: int, n: nat)
    requires blockSize > 0 && n <= |ls|
  {
    FirstTouch(AllFirst(ls[..n], blockSize)) == OnLower(FirstTouch(AllFile(ls[..n], blockSize)))
  }

  /** A line with a bad timestamp brings in nothing that a good line has not already brought. */
  ghost predicate Harmless(ls: seq<Line>, blockSize: int, n: nat)
    requires blockSize > 0 && n < |ls|
  {
    BadTimestamp(ls[n]) ==>
      forall b :: b in FirstItems(ls[n], blockSize) ==> b in LowerFile(ls[..n], blockSize)
  }

  lemma AgreeStep(ls: seq<Line>, blockSize: int, n: nat)
    requires blockSize > 0 && n < |ls| && AgreeAt(ls, blockSize, n)
    ensures AgreeAt(ls, blockSize, n + 1) <==> Harmless(ls, blockSize, n)
  {
    var a, g, k := AllFirst(ls[..n], blockSize), LowerFile(ls[..n], blockSize), FirstItems(ls[n], blockSize);
    ExtendTrace(ls, blockSize, n);
    OnLowerFirstTouch(AllFile(ls[..n], blockSize));
    OnLowerFirstTouch(AllFile(ls[..n + 1], blockSize));
    FirstTouchFacts(a, 0);
    FirstTouchFacts(g, 0);
    if BadTimestamp(ls[n]) {
      assert g + [] == g;
      if Harmless(ls, blockSize, n) {
        FirstTouchAgain(a, k);
      } else {
        var b :| b in k && b !in g;
        FirstTouchFacts(a + k, 0);
        assert b in a + k;
      }
    } else {
      FirstTouchExtend(a, g, k);
    }
  }

  ghost predicate AgreeUpto(ls: seq<Line>, blockSize: int, n: nat)
    requires blockSize > 0 && n <= |ls|
  {
    AgreeAt(ls, blockSize, n) && (n > 0 ==> AgreeUpto(ls, blockSize, n - 1))
  }

  ghost predicate HarmlessUpto(ls: seq<Line>, blockSize: int, n: nat)
    requires blockSize > 0 && n <= |ls|
  {
    n > 0 ==> Harmless(ls, blockSize, n - 1) && HarmlessUpto(ls, blockSize, n - 1)
  }

  /** The collectors agree at every point while a trace is being read exactly when each read with an
      unusable timestamp touches only blocks already read with a usable one. */
  lemma {:induction false} AgreeThroughoutIff(ls: seq<Line>, blockSize: int, n: nat)
    requires blockSize > 0 && n <= |ls|
    ensures AgreeUpto(ls, blockSize, n) <==> HarmlessUpto(ls, blockSize, n)
  {
    if n > 0 {
      AgreeThroughoutIff(ls, blockSize, n - 1);
      if AgreeAt(ls, blockSize, n - 1) { AgreeStep(ls, blockSize, n - 1); }
    } else {
      assert ls[..0] == [];
    }
  }

  // ---------------------------------------------------------------- agreement on a whole trace

  /** One pass over a trace. `known` holds the lower-drive blocks read with a usable timestamp, `owed`
      those that only reads with an unusable one have touched, oldest first. A new block that comes
      ahead of one still owed breaks the order for good. */
  datatype Ledger = Ledger(known: set<Block>, owed: seq<Block>) | Broken

  function Touch(l: Ledger, b: Block, usable: bool): Ledger {
    if l.Broken? || b in l.known then l
    else if !usable then (if b in l.owed then l else l.(owed := l.owed + [b]))
    else if l.owed == [] then l.(known := l.known + {b})
    else if l.owed[0] == b then Ledger(l.known + {b}, l.owed[1..])
    else Broken
  }

  function TouchAll(l: Ledger, bs: seq<Block>, usable: bool): Ledger {
    if bs == [] then l else Touch(TouchAll(l, bs[..|bs| - 1], usable), bs[|bs| - 1], usable)
  }

  function Scan(ls: seq<Line>, blockSize: int): Ledger
    requires blockSize > 0
  {
    if ls == [] then Ledger({}, []) else
      var l := ls[|ls| - 1];
      TouchAll(Scan(ls[..|ls| - 1], blockSize), FirstItems(l, blockSize), !BadTimestamp(l))
  }

  ghost predicate Differ<T(!new)>(a: seq<T>, g: seq<T>) {
    exists i :: 0 <= i < |a| && i < |g| && a[i] != g[i]
  }

  /** What the ledger says about the touches so far, with and without the unusable reads. */
  ghost predicate Tracks(l: Ledger, a: seq<Block>, g: seq<Block>) {
    match l
    case Ledger(known, owed) => FirstTouch(a) == FirstTouch(g) + owed && forall b :: b in known <==> b in FirstTouch(g)
    case Broken => Differ(FirstTouch(a), FirstTouch(g))
  }

  lemma DifferExtend<T(!new)>(a: seq<T>, g: seq<T>, a': seq<T>, g': seq<T>)
    requires Differ(a, g) && a <= a' && g <= g'
    ensures Differ(a', g')
  {
    var i :| 0 <= i < |a| && i < |g| && a[i] != g[i];
    assert a'[i] == a[i] && g'[i] == g[i];
  }

  /** Without the order: a touch with a usable timestamp, of a block not known yet. */
  lemma PayOwed(fa: seq<Block>, fg: seq<Block>, owed: seq<Block>, b: Block)
    requires fa == fg + owed && b !in fg
    ensures owed == [] ==> b !in fa
    ensures owed != [] && owed[0] == b ==> b in fa && fa == fg + [b] + owed[1..]
    ensures owed != [] && owed[0] != b ==> fa[|fg|] != b
  {
    if owed != [] {
      assert fa[|fg|] == owed[0];
      if owed[0] == b {
        assert [b] + owed[1..] == owed;
        ConcatAssociates(fg, [b], owed[1..]);
      }
    }
  }

  lemma UsableTracks(l: Ledger, a: seq<Block>, g: seq<Block>, b: Block)
    requires l.Ledger? && Tracks(l, a, g)
    ensures Tracks(Touch(l, b, true), a + [b], g + [b])
  {
    FirstTouchAppend(a, b);
    FirstTouchAppend(g, b);
    var fa, fg := FirstTouch(a), FirstTouch(g);
    if b in fg {
      assert b in fa;
    } else {
      PayOwed(fa, fg, l.owed, b);
      if l.owed == [] {
        assert fa == fg;
      } else if l.owed[0] != b {
        var fa' := FirstTouch(a + [b]);
        assert fa'[|fg|] == fa[|fg|] && (fg + [b])[|fg|] == b;
      }
    }
  }

  lemma UnusableTracks(l: Ledger, a: seq<Block>, g: seq<Block>, b: Block)
    requires l.Ledger? && Tracks(l, a, g)
    ensures Tracks(Touch(l, b, false), a + [b], g)
  {
    FirstTouchAppend(a, b);
    var fg := FirstTouch(g);
    ConcatAssociates(fg, l.owed, [b]);
  }

  lemma TouchTracks(l: Ledger, a: seq<Block>, g: seq<Block>, b: Block, usable: bool)
    requires Tracks(l, a, g)
    ensures Tracks(Touch(l, b, usable), a + [b], if usable then g + [b] else g)
  {
    if l.Broken? {
      FirstTouchAppend(a, b);
      FirstTouchAppend(g, b);
      DifferExtend(FirstTouch(a), FirstTouch(g), FirstTouch(a + [b]), FirstTouch(if usable then g + [b] else g));
    } else if usable {
      UsableTracks(l, a, g, b);
    } else {
      UnusableTracks(l, a, g, b);
    }
  }

  lemma {:induction false} TouchAllTracks(l: Ledger, a: seq<Block>, g: seq<Block>, bs: seq<Block>, usable: bool)
    requires Tracks(l, a, g)
    ensures Tracks(TouchAll(l, bs, usable), a + bs, if usable then g + bs else g)
  {
    if bs == [] {
      assert a + bs == a && g + bs == g;
    } else {
      var m := |bs| - 1;
      TouchAllTracks(l, a, g, bs[..m], usable);
      TouchTracks(TouchAll(l, bs[..m], usable), a + bs[..m], if usable then g + bs[..m] else g, bs[m], usable);
      ConcatLast(a, bs);
      ConcatLast(g, bs);
    }
  }

  lemma {:induction false} ScanTracks(ls: seq<Line>, blockSize: int)
    requires blockSize > 0
    ensures Tracks(Scan(ls, blockSize), AllFirst(ls, blockSize), LowerFile(ls, blockSize))
  {
    if ls != [] {
      var m := |ls| - 1;
      ScanTracks(ls[..m], blockSize);
      TouchAllTracks(Scan(ls[..m], blockSize), AllFirst(ls[..m], blockSize), LowerFile(ls[..m], blockSize),
                     FirstItems(ls[m], blockSize), !BadTimestamp(ls[m]));
      ExtendTrace(ls, blockSize, m);
      assert ls[..m + 1] == ls;
      assert LowerFile(ls[..m], blockSize) + [] == LowerFile(ls[..m], blockSize);
    }
  }

  /** Over a whole trace, the collectors report the same blocks in the same order exactly when the
      pass ends with its order unbroken and nothing owed. */
  lemma CollectorsAgreeIff(ls: seq<Line>, blockSize: int)
    requires blockSize > 0
    ensures FirstTouch(AllFirst(ls, blockSize)) == OnLower(FirstTouch(AllFile(ls, blockSize))) <==>
      Scan(ls, blockSize).Ledger? && Scan(ls, blockSize).owed == []
  {
    ScanTracks(ls, blockSize);
    OnLowerFirstTouch(AllFile(ls, blockSize));
  }

  /** They do disagree: one read without a timestamp. */
  lemma CollectorsDisagree() returns (ls: seq<Line>)
    ensures !AgreeAt(ls, 4096, |ls|)
  {
    ls := [Fields(None, "rootfs", "read", Some(0), Some(1))];
    assert ls[..0] == [];
    AgreeStep(ls, 4096, 0);
    assert Span("rootfs", 0, -1) == [];
    assert BadTimestamp(ls[0]) && FirstItems(ls[0], 4096) == [Block("rootfs", 0)];
    assert Block("rootfs", 0) in FirstItems(ls[0], 4096);
    assert LowerFile(ls[..0], 4096) == [];
  }
}
