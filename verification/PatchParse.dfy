/** The patch format of the recorded sessions: parsing it, printing it, listing the files it changes. */
module PatchParse {
  import opened Common
  import opened PatchApply

  const BEGIN := "*** Begin Patch"
  const END := "*** End Patch"
  const UPDATE := "*** Update File: "
  const ADD := "*** Add File: "
  const DELETE := "*** Delete File: "
  const MOVE := "*** Move to: "
  const EOF := "*** End of File"

  // ---------------------------------------------------------------- lines

  /** What a patch line is, by its first characters. */
  datatype LineKind =
    | HeadUpdate | HeadAdd | HeadDelete | HeadMove | EndOfFile | HunkHead
    | Body(kind: Kind) | Unexpected

  function Mark(k: Kind): char {
    match k case Add => '+' case Delete => '-' case Context => ' ' case Other => '?'
  }

  function Classify(l: string): LineKind {
    if UPDATE <= l then HeadUpdate
    else if ADD <= l then HeadAdd
    else if DELETE <= l then HeadDelete
    else if MOVE <= l then HeadMove
    else if l == EOF then EndOfFile
    else if "@@" <= l then HunkHead
    else if l == [] then Unexpected
    else if l[0] == ' ' then Body(Context)
    else if l[0] == '+' then Body(Add)
    else if l[0] == '-' then Body(Delete)
    else Unexpected
  }

  /** The tests the parsers make exclude one another, so their order does not matter. */
  lemma ClassifyFacts(l: string)
    ensures Classify(l).HeadUpdate? <==> UPDATE <= l
    ensures Classify(l).HeadAdd? <==> ADD <= l
    ensures Classify(l).HeadDelete? <==> DELETE <= l
    ensures Classify(l).HeadMove? <==> MOVE <= l
    ensures Classify(l).EndOfFile? <==> l == EOF
    ensures Classify(l).HunkHead? <==> "@@" <= l
    ensures forall k: Kind :: !k.Other? ==> (Classify(l) == Body(k) <==> l != [] && l[0] == Mark(k))
    ensures Classify(l) != Body(Other)
  {
    if UPDATE <= l { assert l[0] == '*' && l[4] == 'U'; }
    if ADD <= l { assert l[0] == '*' && l[4] == 'A'; }
    if DELETE <= l { assert l[0] == '*' && l[4] == 'D'; }
    if MOVE <= l { assert l[0] == '*' && l[4] == 'M'; }
    if l == EOF { assert l[0] == '*' && l[4] == 'E'; }
    if "@@" <= l { assert l[0] == '@'; }
  }

  predicate IsSpace(c: char) {
    var n := c as int;
    9 <= n <= 13 || 28 <= n <= 32 || n == 0x85 || n == 0xA0 || n == 0x1680 || 0x2000 <= n <= 0x200A
    || n == 0x2028 || n == 0x2029 || n == 0x202F || n == 0x205F || n == 0x3000
  }

  function Strip(s: string): string {
    if s == [] then []
    else if IsSpace(s[0]) then Strip(s[1..])
    else if IsSpace(s[|s| - 1]) then Strip(s[..|s| - 1])
    else s
  }

  predicate Blank(s: string) { forall i :: 0 <= i < |s| ==> IsSpace(s[i]) }

  /** s is r between blanks. */
  ghost predicate Trims(s: string, r: string) {
    exists i, j :: 0 <= i <= j <= |s| && s[i..j] == r && Blank(s[..i]) && Blank(s[j..])
  }

  lemma {:induction false} StripEnds(s: string)
    ensures var r := Strip(s); r != [] ==> !IsSpace(r[0]) && !IsSpace(r[|r| - 1])
    decreases |s|
  {
    if s != [] {
      if IsSpace(s[0]) { StripEnds(s[1..]); } else if IsSpace(s[|s| - 1]) { StripEnds(s[..|s| - 1]); }
    }
  }

  lemma TrimsFront(s: string, r: string)
    requires s != [] && IsSpace(s[0]) && Trims(s[1..], r)
    ensures Trims(s, r)
  {
    var t := s[1..];
    var i, j :| 0 <= i <= j <= |t| && t[i..j] == r && Blank(t[..i]) && Blank(t[j..]);
    TailSlices(s, i, j);
    BlankCons(s, i + 1);
    assert s[i + 1..j + 1] == r;
  }

  lemma TailSlices(s: string, i: nat, j: nat)
    requires s != [] && i <= j < |s|
    ensures s[1..][i..j] == s[i + 1..j + 1] && s[1..][..i] == s[1..i + 1] && s[1..][j..] == s[j + 1..]
  {
  }

  lemma BlankCons(s: string, n: nat)
    requires 0 < n <= |s| && IsSpace(s[0]) && Blank(s[1..n])
    ensures Blank(s[..n])
  {
    assert s[..n] == [s[0]] + s[1..n];
  }

  lemma TrimsBack(s: string, r: string)
    requires s != [] && IsSpace(s[|s| - 1]) && Trims(s[..|s| - 1], r)
    ensures Trims(s, r)
  {
    var t := s[..|s| - 1];
    var i, j :| 0 <= i <= j <= |t| && t[i..j] == r && Blank(t[..i]) && Blank(t[j..]);
    InitSlices(s, i, j);
    BlankSnoc(s, j);
    assert s[i..j] == r;
  }

  lemma InitSlices(s: string, i: nat, j: nat)
    requires s != [] && i <= j < |s|
    ensures var t := s[..|s| - 1]; t[i..j] == s[i..j] && t[..i] == s[..i] && t[j..] == s[j..|s| - 1]
  {
  }

  lemma BlankSnoc(s: string, n: nat)
    requires n < |s| && IsSpace(s[|s| - 1]) && Blank(s[n..|s| - 1])
    ensures Blank(s[n..])
  {
    assert s[n..] == s[n..|s| - 1] + [s[|s| - 1]];
  }

  /** Stripping takes white space off both ends, all of it and nothing else. */
  lemma {:induction false} StripMeans(s: string)
    ensures Trims(s, Strip(s))
    ensures var r := Strip(s); r != [] ==> !IsSpace(r[0]) && !IsSpace(r[|r| - 1])
    decreases |s|
  {
    StripEnds(s);
    if s != [] && IsSpace(s[0]) {
      StripMeans(s[1..]);
      TrimsFront(s, Strip(s));
    } else if s != [] && IsSpace(s[|s| - 1]) {
      StripMeans(s[..|s| - 1]);
      TrimsBack(s, Strip(s));
    } else {
      assert s[0..|s|] == s && s[..0] == [] && s[|s|..] == [];
    }
  }

  function Argument(l: string, prefix: string): string
    requires prefix <= l
  {
    Strip(l[|prefix|..])
  }

  predicate IsHeader(l: string) {
    var k := Classify(l); k.HeadUpdate? || k.HeadAdd? || k.HeadDelete?
  }

  // ---------------------------------------------------------------- operations

  datatype PHunk = PHunk(header: string, blocks: seq<Block>)

  datatype Op =
    | UpdateFile(path: string, moveTo: Option<string>, hunks: seq<PHunk>, endOfFile: bool)
    | AddFile(path: string, blocks: seq<Block>, endOfFile: bool)
    | DeleteFile(path: string)

  /** `append_block`: extend the last block of the same kind, or start a new one. */
  function AppendLine(bs: seq<Block>, k: Kind, text: string): seq<Block> {
    if bs != [] && bs[|bs| - 1].kind == k then
      bs[..|bs| - 1] + [Block(k, bs[|bs| - 1].lines + [text])]
    else bs + [Block(k, [text])]
  }

  /** The body of an update section so far. */
  datatype Section = Section(hunks: seq<PHunk>, endOfFile: bool)

  function UpdateLine(s: Section, l: string): Option<Section> {
    match Classify(l)
    case EndOfFile => Some(s.(endOfFile := true))
    case HunkHead => Some(s.(hunks := s.hunks + [PHunk(l, [])]))
    case Body(k) =>
      var hs := if s.hunks == [] then [PHunk("@@", [])] else s.hunks;
      var h := hs[|hs| - 1];
      if l == [] then None else
        Some(s.(hunks := hs[..|hs| - 1] + [h.(blocks := AppendLine(h.blocks, k, l[1..]))]))
    case _ => None
  }

  function UpdateBody(s: Option<Section>, ls: seq<string>): Option<Section>
    decreases |ls|
  {
    if ls == [] || s.None? then s else UpdateBody(UpdateLine(s.value, ls[0]), ls[1..])
  }

  /** The body of an add section so far. */
  datatype Addition = Addition(blocks: seq<Block>, endOfFile: bool)

  function AddLine(s: Addition, l: string): Option<Addition> {
    match Classify(l)
    case EndOfFile => Some(s.(endOfFile := true))
    case Body(k) => if k.Add? && l != [] then Some(s.(blocks := AppendLine(s.blocks, Add, l[1..]))) else None
    case _ => None
  }

  function AddBody(s: Option<Addition>, ls: seq<string>): Option<Addition>
    decreases |ls|
  {
    if ls == [] || s.None? then s else AddBody(AddLine(s.value, ls[0]), ls[1..])
  }

  /** Lines before the next file header. */
  function SectionLength(ls: seq<string>): (n: nat)
    ensures n <= |ls| && (n < |ls| ==> IsHeader(ls[n])) && forall i :: 0 <= i < n ==> !IsHeader(ls[i])
  {
    if ls == [] || IsHeader(ls[0]) then 0 else 1 + SectionLength(ls[1..])
  }

  datatype Parsed = Accepted(ops: seq<Op>) | ValueError

  function Cons(op: Op, rest: Parsed): Parsed {
    if rest.Accepted? then Accepted([op] + rest.ops) else ValueError
  }

  /** The optional move line right after an update header. */
  function MoveLine(ls: seq<string>): Option<string> {
    if ls != [] && MOVE <= ls[0] then Some(Argument(ls[0], MOVE)) else None
  }

  function AfterMove(ls: seq<string>): (r: seq<string>)
    ensures |r| <= |ls|
  {
    if MoveLine(ls).Some? then ls[1..] else ls
  }

  function UpdateOp(head: string, ls: seq<string>): Option<Op>
    requires UPDATE <= head
  {
    var rest := AfterMove(ls);
    var body := UpdateBody(Some(Section([], false)), rest[..SectionLength(rest)]);
    if body.None? then None else
      Some(UpdateFile(Argument(head, UPDATE), MoveLine(ls), body.value.hunks, body.value.endOfFile))
  }

  function AddOp(head: string, ls: seq<string>): Option<Op>
    requires ADD <= head
  {
    var body := AddBody(Some(Addition([], false)), ls[..SectionLength(ls)]);
    if body.None? then None else Some(AddFile(Argument(head, ADD), body.value.blocks, body.value.endOfFile))
  }

  /** The lines between the begin and end markers. */
  function ParseOps(ls: seq<string>): Parsed
    decreases |ls|
  {
    if ls == [] then Accepted([])
    else if UPDATE <= ls[0] then
      var op, rest := UpdateOp(ls[0], ls[1..]), AfterMove(ls[1..]);
      if op.None? then ValueError else Cons(op.value, ParseOps(rest[SectionLength(rest)..]))
    else if ADD <= ls[0] then
      var op, rest := AddOp(ls[0], ls[1..]), ls[1..];
      if op.None? then ValueError else Cons(op.value, ParseOps(rest[SectionLength(rest)..]))
    else if DELETE <= ls[0] then Cons(DeleteFile(Argument(ls[0], DELETE)), ParseOps(ls[1..]))
    else ValueError
  }

  function Parse(ls: seq<string>): Parsed {
    if ls == [] || ls[0] != BEGIN || ls[|ls| - 1] != END || |ls| < 2 then ValueError
    else ParseOps(ls[1..|ls| - 1])
  }

  // ---------------------------------------------------------------- listing the changed files

  datatype Change =
    | Updates(path: string) | Adds(path: string) | Deletes(path: string)
    | Moves(from: string, path: string)

  /** `changed_files_from_patch`, from a point where `current` is the last updated file. */
  function Changes(current: Option<string>, ls: seq<string>): seq<Change>
    decreases |ls|
  {
    if ls == [] then []
    else if UPDATE <= ls[0] then
      [Updates(Argument(ls[0], UPDATE))] + Changes(Some(Argument(ls[0], UPDATE)), ls[1..])
    else if ADD <= ls[0] then [Adds(Argument(ls[0], ADD))] + Changes(None, ls[1..])
    else if DELETE <= ls[0] then [Deletes(Argument(ls[0], DELETE))] + Changes(None, ls[1..])
    else if MOVE <= ls[0] then
      [Moves(if current.Some? then current.value else "", Argument(ls[0], MOVE))] + Changes(current, ls[1..])
    else Changes(current, ls[1..])
  }

  /** What the parsed operations say about files. */
  function OpChanges(op: Op): seq<Change> {
    match op
    case UpdateFile(p, m, _, _) => [Updates(p)] + if m.Some? then [Moves(p, m.value)] else []
    case AddFile(p, _, _) => [Adds(p)]
    case DeleteFile(p) => [Deletes(p)]
  }

  function Summary(ops: seq<Op>): seq<Change> {
    if ops == [] then [] else OpChanges(ops[0]) + Summary(ops[1..])
  }

  /** Neither a file header nor a move. */
  predicate Silent(l: string) { !IsHeader(l) && !Classify(l).HeadMove? }

  lemma {:induction false} SilentLines(current: Option<string>, ls: seq<string>, n: nat)
    requires n <= |ls| && forall i :: 0 <= i < n ==> Silent(ls[i])
    ensures Changes(current, ls) == Changes(current, ls[n..])
  {
    if n > 0 {
      ClassifyFacts(ls[0]);
      SilentLines(current, ls[1..], n - 1);
      assert ls[1..][n - 1..] == ls[n..];
    }
  }

  lemma {:induction false} UpdateBodySilent(s: Option<Section>, ls: seq<string>, i: nat)
    requires UpdateBody(s, ls).Some? && s.Some? && i < |ls|
    ensures Silent(ls[i])
    decreases |ls|
  {
    if i > 0 { UpdateBodySilent(UpdateLine(s.value, ls[0]), ls[1..], i - 1); }
  }

  lemma {:induction false} AddBodySilent(s: Option<Addition>, ls: seq<string>, i: nat)
    requires AddBody(s, ls).Some? && s.Some? && i < |ls|
    ensures Silent(ls[i])
    decreases |ls|
  {
    if i > 0 { AddBodySilent(AddLine(s.value, ls[0]), ls[1..], i - 1); }
  }

  /** At a file header, or at the end, what went before no longer matters. */
  lemma FreshStart(current: Option<string>, ls: seq<string>)
    requires ls == [] || IsHeader(ls[0])
    ensures Changes(current, ls) == Changes(None, ls)
  {
    if ls != [] { ClassifyFacts(ls[0]); }
  }

  /** For every accepted patch, the file list is what the parsed operations say. */
  lemma {:induction false} ListingMatchesParse(ls: seq<string>)
    requires ParseOps(ls).Accepted?
    ensures Changes(None, ls) == Summary(ParseOps(ls).ops)
    decreases |ls|
  {
    if ls != [] {
      ClassifyFacts(ls[0]);
      if UPDATE <= ls[0] {
        ListUpdate(ls);
      } else if ADD <= ls[0] {
        ListAdd(ls);
      } else {
        ListingMatchesParse(ls[1..]);
      }
    }
  }

  lemma MoveListed(path: string, ls: seq<string>)
    ensures Changes(Some(path), ls)
         == (if MoveLine(ls).Some? then [Moves(path, MoveLine(ls).value)] else []) + Changes(Some(path), AfterMove(ls))
  {
    if MoveLine(ls).Some? { ClassifyFacts(ls[0]); }
  }

  lemma UpdateListed(ls: seq<string>, path: string, n: nat)
    requires n == SectionLength(AfterMove(ls)) && UpdateBody(Some(Section([], false)), AfterMove(ls)[..n]).Some?
    ensures Changes(Some(path), ls)
         == (if MoveLine(ls).Some? then [Moves(path, MoveLine(ls).value)] else []) + Changes(None, AfterMove(ls)[n..])
  {
    var rest := AfterMove(ls);
    MoveListed(path, ls);
    forall i | 0 <= i < n ensures Silent(rest[i]) {
      UpdateBodySilent(Some(Section([], false)), rest[..n], i);
    }
    SilentLines(Some(path), rest, n);
    FreshStart(Some(path), rest[n..]);
  }

  lemma SummaryCons(op: Op, ops: seq<Op>)
    ensures Summary([op] + ops) == OpChanges(op) + Summary(ops)
  {
    assert ([op] + ops)[1..] == ops;
  }

  lemma UpdateHead(ls: seq<string>)
    requires ls != [] && UPDATE <= ls[0]
    ensures Changes(None, ls) == [Updates(Argument(ls[0], UPDATE))] + Changes(Some(Argument(ls[0], UPDATE)), ls[1..])
    ensures ParseOps(ls).Accepted? ==>
      var op, rest := UpdateOp(ls[0], ls[1..]), AfterMove(ls[1..]);
      op.Some? && ParseOps(ls) == Cons(op.value, ParseOps(rest[SectionLength(rest)..]))
  {
  }

  lemma {:induction false} ListUpdate(ls: seq<string>)
    requires ls != [] && UPDATE <= ls[0] && ParseOps(ls).Accepted?
    ensures Changes(None, ls) == Summary(ParseOps(ls).ops)
    decreases |ls|, 0
  {
    UpdateHead(ls);
    var op, rest := UpdateOp(ls[0], ls[1..]).value, AfterMove(ls[1..]);
    var n := SectionLength(rest);
    UpdateListed(ls[1..], op.path, n);
    ListingMatchesParse(rest[n..]);
    var tail := ParseOps(rest[n..]).ops;
    SummaryCons(op, tail);
    var moved := if op.moveTo.Some? then [Moves(op.path, op.moveTo.value)] else [];
    ConcatAssociates([Updates(op.path)], moved, Summary(tail));
  }

  lemma {:induction false} ListAdd(ls: seq<string>)
    requires ls != [] && ADD <= ls[0] && Classify(ls[0]).HeadAdd? && ParseOps(ls).Accepted?
    ensures Changes(None, ls) == Summary(ParseOps(ls).ops)
    decreases |ls|, 0
  {
    ClassifyFacts(ls[0]);
    var rest := ls[1..];
    var n := SectionLength(rest);
    forall i | 0 <= i < n ensures Silent(rest[i]) {
      AddBodySilent(Some(Addition([], false)), rest[..n], i);
    }
    SilentLines(None, rest, n);
    ListingMatchesParse(rest[n..]);
  }

  lemma MarkersSilent()
    ensures Silent(BEGIN) && Silent(END)
  {
    ClassifyFacts(BEGIN);
    ClassifyFacts(END);
    assert UPDATE[4] == 'U' && ADD[4] == 'A' && DELETE[4] == 'D' && MOVE[4] == 'M';
    assert BEGIN[4] == 'B' && END[4] == 'E';
    assert forall p: string, l: string :: p <= l && |p| > 4 ==> p[4] == l[4];
  }

  lemma {:induction false} Trailer(current: Option<string>, ls: seq<string>, last: string)
    requires Silent(last)
    ensures Changes(current, ls + [last]) == Changes(current, ls)
    decreases |ls|
  {
    if ls == [] {
      assert ls + [last] == [last];
      SilentLines(current, [last], 1);
    } else {
      assert (ls + [last])[1..] == ls[1..] + [last];
      Trailer(current, ls[1..], last);
      Trailer(None, ls[1..], last);
      if UPDATE <= ls[0] { Trailer(Some(Argument(ls[0], UPDATE)), ls[1..], last); }
    }
  }

  lemma ListingInMarkers(first: string, body: seq<string>, last: string)
    requires Silent(first) && Silent(last) && ParseOps(body).Accepted?
    ensures Changes(None, [first] + body + [last]) == Summary(ParseOps(body).ops)
  {
    var ls := [first] + body + [last];
    assert ls[0] == first && ls[1..] == body + [last];
    SilentLines(None, ls, 1);
    Trailer(None, body, last);
    ListingMatchesParse(body);
  }

  /** The same for the whole patch text, markers included. */
  lemma PatchListing(ls: seq<string>)
    requires Parse(ls).Accepted?
    ensures Changes(None, ls) == Summary(Parse(ls).ops)
  {
    var body := ls[1..|ls| - 1];
    assert ls == [ls[0]] + body + [ls[|ls| - 1]];
    MarkersSilent();
    ListingInMarkers(ls[0], body, ls[|ls| - 1]);
  }

  // ---------------------------------------------------------------- printing

  function PrintLines(k: Kind, lines: seq<string>): seq<string> {
    seq(|lines|, i requires 0 <= i < |lines| => [Mark(k)] + lines[i])
  }

  function PrintBlocks(bs: seq<Block>): seq<string> {
    if bs == [] then [] else PrintBlocks(bs[..|bs| - 1]) + PrintLines(bs[|bs| - 1].kind, bs[|bs| - 1].lines)
  }

  function PrintHunks(hs: seq<PHunk>): seq<string> {
    if hs == [] then [] else
      PrintHunks(hs[..|hs| - 1]) + ([hs[|hs| - 1].header] + PrintBlocks(hs[|hs| - 1].blocks))
  }

  function PrintEnd(endOfFile: bool): seq<string> { if endOfFile then [EOF] else [] }

  function PrintMove(moveTo: Option<string>): seq<string> {
    if moveTo.Some? then [MOVE + moveTo.value] else []
  }

  function PrintOp(op: Op): seq<string> {
    match op
    case UpdateFile(p, m, hs, e) => [UPDATE + p] + (PrintMove(m) + (PrintHunks(hs) + PrintEnd(e)))
    case AddFile(p, bs, e) => [ADD + p] + (PrintBlocks(bs) + PrintEnd(e))
    case DeleteFile(p) => [DELETE + p]
  }

  function PrintOps(ops: seq<Op>): seq<string> {
    if ops == [] then [] else PrintOp(ops[0]) + PrintOps(ops[1..])
  }

  function Print(ops: seq<Op>): seq<string> {
    [BEGIN] + PrintOps(ops) + [END]
  }

  /** Blocks are non-empty, of a known kind, and neighbours differ in kind. */
  ghost predicate NormalBlocks(bs: seq<Block>) {
    && (forall i :: 0 <= i < |bs| ==> !bs[i].kind.Other? && bs[i].lines != [])
    && (forall i, j :: 0 <= i < j < |bs| && j == i + 1 ==> bs[i].kind != bs[j].kind)
  }

  ghost predicate NormalHunks(hs: seq<PHunk>) {
    forall i :: 0 <= i < |hs| ==> "@@" <= hs[i].header && NormalBlocks(hs[i].blocks)
  }

  ghost predicate OnlyAdds(bs: seq<Block>) {
    forall i :: 0 <= i < |bs| ==> bs[i].kind.Add?
  }

  ghost predicate NormalOp(op: Op) {
    Strip(op.path) == op.path &&
    match op
    case UpdateFile(_, m, hs, _) => NormalHunks(hs) && (m.Some? ==> Strip(m.value) == m.value)
    case AddFile(_, bs, _) => NormalBlocks(bs) && OnlyAdds(bs)
    case DeleteFile(_) => true
  }

  ghost predicate Normal(ops: seq<Op>) {
    forall i :: 0 <= i < |ops| ==> NormalOp(ops[i])
  }

  // ---------------------------------------------------------------- reading a printed section

  lemma {:induction false} UpdateBodyConcat(s: Option<Section>, a: seq<string>, b: seq<string>)
    ensures UpdateBody(s, a + b) == UpdateBody(UpdateBody(s, a), b)
    decreases |a|
  {
    if a == [] {
      assert a + b == b;
    } else if s.Some? {
      assert (a + b)[1..] == a[1..] + b;
      UpdateBodyConcat(UpdateLine(s.value, a[0]), a[1..], b);
    }
  }

  lemma {:induction false} AddBodyConcat(s: Option<Addition>, a: seq<string>, b: seq<string>)
    ensures AddBody(s, a + b) == AddBody(AddBody(s, a), b)
    decreases |a|
  {
    if a == [] {
      assert a + b == b;
    } else if s.Some? {
      assert (a + b)[1..] == a[1..] + b;
      AddBodyConcat(AddLine(s.value, a[0]), a[1..], b);
    }
  }

  lemma UpdateBodyOne(s: Section, l: string)
    ensures UpdateBody(Some(s), [l]) == UpdateLine(s, l)
  {
    assert [l][1..] == [];
  }

  lemma AddBodyOne(s: Addition, l: string)
    ensures AddBody(Some(s), [l]) == AddLine(s, l)
  {
    assert [l][1..] == [];
  }

  /** The state of a section whose last hunk holds `bs`. */
  function Open(hs: seq<PHunk>, header: string, bs: seq<Block>): Section {
    Section(hs + [PHunk(header, bs)], false)
  }

  predicate Extends(bs: seq<Block>, k: Kind) { bs == [] || bs[|bs| - 1].kind != k }

  lemma BodyLine(hs: seq<PHunk>, header: string, bs: seq<Block>, k: Kind, text: string)
    requires !k.Other?
    ensures UpdateLine(Open(hs, header, bs), [Mark(k)] + text) == Some(Open(hs, header, AppendLine(bs, k, text)))
    ensures k.Add? ==> AddLine(Addition(bs, false), [Mark(k)] + text) == Some(Addition(AppendLine(bs, k, text), false))
  {
    var l := [Mark(k)] + text;
    ClassifyFacts(l);
    assert l[1..] == text;
    assert (hs + [PHunk(header, bs)])[..|hs|] == hs;
  }

  lemma PrintLinesLast(k: Kind, lines: seq<string>)
    requires lines != []
    ensures PrintLines(k, lines) == PrintLines(k, lines[..|lines| - 1]) + [[Mark(k)] + lines[|lines| - 1]]
  {
  }

  lemma AppendMore(bs: seq<Block>, k: Kind, init: seq<string>, x: string)
    ensures AppendLine(bs + [Block(k, init)], k, x) == bs + [Block(k, init + [x])]
  {
    assert (bs + [Block(k, init)])[..|bs|] == bs;
  }

  lemma AppendToBlock(bs: seq<Block>, k: Kind, lines: seq<string>)
    requires Extends(bs, k) && lines != []
    ensures AppendLine(if |lines| == 1 then bs else bs + [Block(k, lines[..|lines| - 1])], k, lines[|lines| - 1])
         == bs + [Block(k, lines)]
  {
    var init, x := lines[..|lines| - 1], lines[|lines| - 1];
    assert init + [x] == lines;
    if |lines| > 1 {
      AppendMore(bs, k, init, x);
    } else {
      assert [x] == lines;
    }
  }

  lemma {:induction false} ReadLines(hs: seq<PHunk>, header: string, bs: seq<Block>, k: Kind, lines: seq<string>)
    requires !k.Other? && Extends(bs, k)
    ensures UpdateBody(Some(Open(hs, header, bs)), PrintLines(k, lines))
         == Some(Open(hs, header, if lines == [] then bs else bs + [Block(k, lines)]))
    decreases |lines|
  {
    if lines != [] {
      var init, x := lines[..|lines| - 1], lines[|lines| - 1];
      ReadLines(hs, header, bs, k, init);
      PrintLinesLast(k, lines);
      UpdateBodyConcat(Some(Open(hs, header, bs)), PrintLines(k, init), [[Mark(k)] + x]);
      var sofar := if init == [] then bs else bs + [Block(k, init)];
      UpdateBodyOne(Open(hs, header, sofar), [Mark(k)] + x);
      BodyLine(hs, header, sofar, k, x);
      AppendToBlock(bs, k, lines);
    }
  }

  lemma NormalPrefix(bs: seq<Block>)
    requires NormalBlocks(bs) && bs != []
    ensures NormalBlocks(bs[..|bs| - 1]) && Extends(bs[..|bs| - 1], bs[|bs| - 1].kind)
  {
  }

  lemma {:induction false} ReadBlocks(hs: seq<PHunk>, header: string, bs: seq<Block>)
    requires NormalBlocks(bs)
    ensures UpdateBody(Some(Open(hs, header, [])), PrintBlocks(bs)) == Some(Open(hs, header, bs))
    decreases |bs|
  {
    if bs != [] {
      var init, b := bs[..|bs| - 1], bs[|bs| - 1];
      NormalPrefix(bs);
      ReadBlocks(hs, header, init);
      UpdateBodyConcat(Some(Open(hs, header, [])), PrintBlocks(init), PrintLines(b.kind, b.lines));
      ReadLines(hs, header, init, b.kind, b.lines);
      assert init + [b] == bs && Block(b.kind, b.lines) == b;
    }
  }

  lemma HunkHeadRead(s: Section, l: string)
    requires "@@" <= l
    ensures UpdateLine(s, l) == Some(s.(hunks := s.hunks + [PHunk(l, [])]))
  {
    ClassifyFacts(l);
  }

  lemma {:induction false} ReadHunks(hs: seq<PHunk>)
    requires NormalHunks(hs)
    ensures UpdateBody(Some(Section([], false)), PrintHunks(hs)) == Some(Section(hs, false))
    decreases |hs|
  {
    if hs != [] {
      var init, h := hs[..|hs| - 1], hs[|hs| - 1];
      ReadHunks(init);
      UpdateBodyConcat(Some(Section([], false)), PrintHunks(init), [h.header] + PrintBlocks(h.blocks));
      UpdateBodyConcat(Some(Section(init, false)), [h.header], PrintBlocks(h.blocks));
      UpdateBodyOne(Section(init, false), h.header);
      HunkHeadRead(Section(init, false), h.header);
      ReadBlocks(init, h.header, h.blocks);
      assert init + [h] == hs && PHunk(h.header, h.blocks) == h;
    }
  }

  lemma ReadSection(hs: seq<PHunk>, e: bool)
    requires NormalHunks(hs)
    ensures UpdateBody(Some(Section([], false)), PrintHunks(hs) + PrintEnd(e)) == Some(Section(hs, e))
  {
    ReadHunks(hs);
    UpdateBodyConcat(Some(Section([], false)), PrintHunks(hs), PrintEnd(e));
    UpdateBodyOne(Section(hs, false), EOF);
    ClassifyFacts(EOF);
  }

  lemma {:induction false} ReadAddLines(lines: seq<string>)
    ensures AddBody(Some(Addition([], false)), PrintLines(Add, lines))
         == Some(Addition(if lines == [] then [] else [Block(Add, lines)], false))
    decreases |lines|
  {
    if lines != [] {
      var init, x := lines[..|lines| - 1], lines[|lines| - 1];
      ReadAddLines(init);
      PrintLinesLast(Add, lines);
      AddBodyConcat(Some(Addition([], false)), PrintLines(Add, init), [[Mark(Add)] + x]);
      var sofar := if init == [] then [] else [] + [Block(Add, init)];
      AddBodyOne(Addition(sofar, false), [Mark(Add)] + x);
      BodyLine([], "", sofar, Add, x);
      AppendToBlock([], Add, lines);
      assert [] + [Block(Add, lines)] == [Block(Add, lines)];
      assert init != [] ==> [] + [Block(Add, init)] == [Block(Add, init)];
    }
  }

  /** An add section is a single block, or none. */
  lemma OneBlock(bs: seq<Block>)
    requires NormalBlocks(bs) && OnlyAdds(bs) && bs != []
    ensures bs == [Block(Add, bs[0].lines)] && PrintBlocks(bs) == PrintLines(Add, bs[0].lines)
  {
    assert |bs| == 1;
    assert bs[..0] == [];
  }

  lemma ReadAddition(bs: seq<Block>, e: bool)
    requires NormalBlocks(bs) && OnlyAdds(bs)
    ensures AddBody(Some(Addition([], false)), PrintBlocks(bs) + PrintEnd(e)) == Some(Addition(bs, e))
  {
    if bs != [] {
      OneBlock(bs);
      ReadAddLines(bs[0].lines);
    }
    AddBodyConcat(Some(Addition([], false)), PrintBlocks(bs), PrintEnd(e));
    AddBodyOne(Addition(bs, false), EOF);
    ClassifyFacts(EOF);
  }

  // ---------------------------------------------------------------- round trip

  predicate Boundary(rest: seq<string>) { rest == [] || IsHeader(rest[0]) }

  lemma {:induction false} SectionEnds(body: seq<string>, rest: seq<string>)
    requires Boundary(rest) && forall i :: 0 <= i < |body| ==> Silent(body[i])
    ensures SectionLength(body + rest) == |body|
    decreases |body|
  {
    if body == [] {
      assert body + rest == rest;
    } else {
      assert (body + rest)[1..] == body[1..] + rest;
      SectionEnds(body[1..], rest);
    }
  }

  lemma HeadArgument(prefix: string, p: string)
    requires Strip(p) == p
    ensures prefix <= prefix + p && Argument(prefix + p, prefix) == p
  {
    assert (prefix + p)[|prefix|..] == p;
  }

  lemma PrintedSection(op: Op, rest: seq<string>)
    requires op.UpdateFile? && NormalOp(op) && Boundary(rest)
    ensures var body := PrintHunks(op.hunks) + PrintEnd(op.endOfFile);
      && SectionLength(body + rest) == |body|
      && UpdateBody(Some(Section([], false)), body) == Some(Section(op.hunks, op.endOfFile))
      && forall i :: 0 <= i < |body| ==> Silent(body[i])
  {
    var body := PrintHunks(op.hunks) + PrintEnd(op.endOfFile);
    ReadSection(op.hunks, op.endOfFile);
    forall i | 0 <= i < |body| ensures Silent(body[i]) {
      UpdateBodySilent(Some(Section([], false)), body, i);
    }
    SectionEnds(body, rest);
  }

  lemma HeadAndTail<T>(head: T, a: seq<T>, b: seq<T>, c: seq<T>)
    ensures var ls := [head] + (a + b) + c;
      ls[0] == head && ls[1..] == a + (b + c)
  {
    assert ([head] + (a + b) + c)[1..] == a + b + c;
  }

  lemma ParseUpdateStep(ls: seq<string>, op: Op, after: seq<string>, rest: seq<string>)
    requires ls != [] && UPDATE <= ls[0] && UpdateOp(ls[0], ls[1..]) == Some(op)
    requires AfterMove(ls[1..]) == after && after[SectionLength(after)..] == rest
    ensures ParseOps(ls) == Cons(op, ParseOps(rest))
  {
  }

  lemma UpdateOpRead(head: string, op: Op, ls: seq<string>, body: seq<string>, rest: seq<string>)
    requires op.UpdateFile? && UPDATE <= head && Argument(head, UPDATE) == op.path
    requires MoveLine(ls) == op.moveTo && AfterMove(ls) == body + rest && SectionLength(body + rest) == |body|
    requires UpdateBody(Some(Section([], false)), body) == Some(Section(op.hunks, op.endOfFile))
    ensures UpdateOp(head, ls) == Some(op)
  {
    assert (body + rest)[..|body|] == body;
  }

  lemma ParseUpdate(op: Op, rest: seq<string>)
    requires op.UpdateFile? && NormalOp(op) && Boundary(rest)
    ensures ParseOps(PrintOp(op) + rest) == Cons(op, ParseOps(rest))
  {
    var body, move := PrintHunks(op.hunks) + PrintEnd(op.endOfFile), PrintMove(op.moveTo);
    PrintedSection(op, rest);
    HeadArgument(UPDATE, op.path);
    HeadAndTail(UPDATE + op.path, move, body, rest);
    MoveRead(op.moveTo, body, rest);
    UpdateOpRead(UPDATE + op.path, op, move + (body + rest), body, rest);
    assert (body + rest)[|body|..] == rest;
    ParseUpdateStep(PrintOp(op) + rest, op, body + rest, rest);
  }

  lemma MoveRead(m: Option<string>, body: seq<string>, rest: seq<string>)
    requires m.Some? ==> Strip(m.value) == m.value
    requires Boundary(rest) && forall i :: 0 <= i < |body| ==> Silent(body[i])
    ensures MoveLine(PrintMove(m) + (body + rest)) == m && AfterMove(PrintMove(m) + (body + rest)) == body + rest
  {
    var ls := PrintMove(m) + (body + rest);
    if m.Some? {
      HeadArgument(MOVE, m.value);
      assert ls[0] == MOVE + m.value && ls[1..] == body + rest;
    } else {
      assert ls == body + rest;
      if ls != [] {
        ClassifyFacts(ls[0]);
        assert body != [] ==> ls[0] == body[0];
        assert body == [] ==> ls == rest;
      }
    }
  }

  lemma PrintedAddition(op: Op, rest: seq<string>)
    requires op.AddFile? && NormalOp(op) && Boundary(rest)
    ensures var body := PrintBlocks(op.blocks) + PrintEnd(op.endOfFile);
      && SectionLength(body + rest) == |body|
      && AddBody(Some(Addition([], false)), body) == Some(Addition(op.blocks, op.endOfFile))
  {
    var body := PrintBlocks(op.blocks) + PrintEnd(op.endOfFile);
    ReadAddition(op.blocks, op.endOfFile);
    forall i | 0 <= i < |body| ensures Silent(body[i]) {
      AddBodySilent(Some(Addition([], false)), body, i);
    }
    SectionEnds(body, rest);
  }

  lemma ParseAddStep(ls: seq<string>, op: Op, rest: seq<string>)
    requires ls != [] && ADD <= ls[0] && AddOp(ls[0], ls[1..]) == Some(op)
    requires ls[1..][SectionLength(ls[1..])..] == rest
    ensures ParseOps(ls) == Cons(op, ParseOps(rest))
  {
    ClassifyFacts(ls[0]);
  }

  lemma AddOpRead(head: string, op: Op, body: seq<string>, rest: seq<string>)
    requires op.AddFile? && ADD <= head && Argument(head, ADD) == op.path && SectionLength(body + rest) == |body|
    requires AddBody(Some(Addition([], false)), body) == Some(Addition(op.blocks, op.endOfFile))
    ensures AddOp(head, body + rest) == Some(op)
  {
    assert (body + rest)[..|body|] == body;
  }

  lemma ParseAdd(op: Op, rest: seq<string>)
    requires op.AddFile? && NormalOp(op) && Boundary(rest)
    ensures ParseOps(PrintOp(op) + rest) == Cons(op, ParseOps(rest))
  {
    var blocks, end := PrintBlocks(op.blocks), PrintEnd(op.endOfFile);
    PrintedAddition(op, rest);
    HeadArgument(ADD, op.path);
    HeadAndTail(ADD + op.path, blocks, end, rest);
    ConcatAssociates(blocks, end, rest);
    AddOpRead(ADD + op.path, op, blocks + end, rest);
    assert (blocks + end + rest)[|blocks + end|..] == rest;
    ParseAddStep(PrintOp(op) + rest, op, rest);
  }

  lemma ParseDelete(op: Op, rest: seq<string>)
    requires op.DeleteFile? && NormalOp(op)
    ensures ParseOps(PrintOp(op) + rest) == Cons(op, ParseOps(rest))
  {
    HeadArgument(DELETE, op.path);
    ClassifyFacts(DELETE + op.path);
    var ls := PrintOp(op) + rest;
    assert ls[0] == DELETE + op.path && ls[1..] == rest;
  }

  lemma PrintedBoundary(ops: seq<Op>)
    requires Normal(ops)
    ensures Boundary(PrintOps(ops))
  {
    if ops != [] {
      var l := PrintOps(ops)[0];
      assert l == PrintOp(ops[0])[0];
      ClassifyFacts(l);
      match ops[0] {
        case UpdateFile(p, _, _, _) => HeadArgument(UPDATE, p);
        case AddFile(p, _, _) => HeadArgument(ADD, p);
        case DeleteFile(p) => HeadArgument(DELETE, p);
      }
    }
  }

  lemma ParsePrinted(op: Op, rest: seq<string>)
    requires NormalOp(op) && Boundary(rest)
    ensures ParseOps(PrintOp(op) + rest) == Cons(op, ParseOps(rest))
  {
    match op {
      case UpdateFile(_, _, _, _) => ParseUpdate(op, rest);
      case AddFile(_, _, _) => ParseAdd(op, rest);
      case DeleteFile(_) => ParseDelete(op, rest);
    }
  }

  lemma {:induction false} OpsRoundTrip(ops: seq<Op>)
    requires Normal(ops)
    ensures ParseOps(PrintOps(ops)) == Accepted(ops)
  {
    if ops != [] {
      var op, rest := ops[0], PrintOps(ops[1..]);
      OpsRoundTrip(ops[1..]);
      PrintedBoundary(ops[1..]);
      ParsePrinted(op, rest);
      ConsAccepted(ops, ParseOps(rest));
    }
  }

  lemma ConsAccepted(ops: seq<Op>, rest: Parsed)
    requires ops != [] && rest == Accepted(ops[1..])
    ensures Cons(ops[0], rest) == Accepted(ops)
  {
    assert ops == [ops[0]] + ops[1..];
  }

  /** Round trip: parsing what was printed gives every normal operation list back. */
  lemma PatchRoundTrip(ops: seq<Op>)
    requires Normal(ops)
    ensures Parse(Print(ops)) == Accepted(ops)
  {
    var ls := Print(ops);
    assert ls[1..|ls| - 1] == PrintOps(ops);
    OpsRoundTrip(ops);
  }

  // ---------------------------------------------------------------- what parsing produces

  lemma {:induction false} StripTwice(s: string)
    ensures Strip(Strip(s)) == Strip(s)
    decreases |s|
  {
    if s != [] {
      if IsSpace(s[0]) { StripTwice(s[1..]); } else if IsSpace(s[|s| - 1]) { StripTwice(s[..|s| - 1]); }
    }
  }

  lemma AppendNormal(bs: seq<Block>, k: Kind, text: string)
    requires NormalBlocks(bs) && !k.Other?
    ensures NormalBlocks(AppendLine(bs, k, text))
    ensures OnlyAdds(bs) && k.Add? ==> OnlyAdds(AppendLine(bs, k, text))
  {
  }

  lemma LastHunkNormal(hs: seq<PHunk>, k: Kind, text: string)
    requires NormalHunks(hs) && hs != [] && !k.Other?
    ensures var h := hs[|hs| - 1];
      NormalHunks(hs[..|hs| - 1] + [h.(blocks := AppendLine(h.blocks, k, text))])
  {
    AppendNormal(hs[|hs| - 1].blocks, k, text);
  }

  lemma LineKinds(l: string)
    ensures Classify(l) != Body(Other) && (Classify(l).HunkHead? ==> "@@" <= l)
  {
  }

  lemma UpdateLineNormal(s: Section, l: string)
    requires NormalHunks(s.hunks) && UpdateLine(s, l).Some?
    ensures NormalHunks(UpdateLine(s, l).value.hunks)
  {
    LineKinds(l);
    if Classify(l).Body? {
      LastHunkNormal(if s.hunks == [] then [PHunk("@@", [])] else s.hunks, Classify(l).kind, l[1..]);
    }
  }

  lemma {:induction false} UpdateBodyNormal(s: Section, ls: seq<string>)
    requires NormalHunks(s.hunks) && UpdateBody(Some(s), ls).Some?
    ensures NormalHunks(UpdateBody(Some(s), ls).value.hunks)
    decreases |ls|
  {
    if ls != [] {
      UpdateLineNormal(s, ls[0]);
      UpdateBodyNormal(UpdateLine(s, ls[0]).value, ls[1..]);
    }
  }

  lemma {:induction false} AddBodyNormal(s: Addition, ls: seq<string>)
    requires NormalBlocks(s.blocks) && OnlyAdds(s.blocks) && AddBody(Some(s), ls).Some?
    ensures var bs := AddBody(Some(s), ls).value.blocks; NormalBlocks(bs) && OnlyAdds(bs)
    decreases |ls|
  {
    if ls != [] {
      if Classify(ls[0]).Body? { AppendNormal(s.blocks, Add, ls[0][1..]); }
      AddBodyNormal(AddLine(s, ls[0]).value, ls[1..]);
    }
  }

  lemma UpdateOpNormal(head: string, ls: seq<string>)
    requires UPDATE <= head && UpdateOp(head, ls).Some?
    ensures NormalOp(UpdateOp(head, ls).value)
  {
    var rest := AfterMove(ls);
    StripTwice(head[|UPDATE|..]);
    if MoveLine(ls).Some? { StripTwice(ls[0][|MOVE|..]); }
    UpdateBodyNormal(Section([], false), rest[..SectionLength(rest)]);
  }

  lemma AddOpNormal(head: string, ls: seq<string>)
    requires ADD <= head && AddOp(head, ls).Some?
    ensures NormalOp(AddOp(head, ls).value)
  {
    StripTwice(head[|ADD|..]);
    AddBodyNormal(Addition([], false), ls[..SectionLength(ls)]);
  }

  /** Every accepted patch parses to normal operations, so printing and parsing again changes
      nothing. */
  lemma {:induction false} ParsedIsNormal(ls: seq<string>)
    requires ParseOps(ls).Accepted?
    ensures Normal(ParseOps(ls).ops)
    decreases |ls|
  {
    if ls != [] {
      if UPDATE <= ls[0] {
        var rest := AfterMove(ls[1..]);
        UpdateOpNormal(ls[0], ls[1..]);
        ParsedIsNormal(rest[SectionLength(rest)..]);
      } else if ADD <= ls[0] {
        var rest := ls[1..];
        AddOpNormal(ls[0], rest);
        ParsedIsNormal(rest[SectionLength(rest)..]);
      } else {
        StripTwice(ls[0][|DELETE|..]);
        ParsedIsNormal(ls[1..]);
      }
    }
  }

  lemma ReparseStable(ls: seq<string>)
    requires Parse(ls).Accepted?
    ensures Parse(Print(Parse(ls).ops)) == Parse(ls)
  {
    ParsedIsNormal(ls[1..|ls| - 1]);
    PatchRoundTrip(Parse(ls).ops);
  }

  // ---------------------------------------------------------------- grouping keeps the lines

  lemma PrintAppend(bs: seq<Block>, k: Kind, text: string)
    ensures PrintBlocks(AppendLine(bs, k, text)) == PrintBlocks(bs) + [[Mark(k)] + text]
  {
    if bs != [] && bs[|bs| - 1].kind == k {
      var init, b := bs[..|bs| - 1], bs[|bs| - 1];
      var b' := Block(k, b.lines + [text]);
      assert (init + [b'])[..|init|] == init;
      PrintLinesLast(k, b'.lines);
      assert b'.lines[..|b.lines|] == b.lines;
      ConcatAssociates(PrintBlocks(init), PrintLines(k, b.lines), [[Mark(k)] + text]);
    } else {
      assert (bs + [Block(k, [text])])[..|bs|] == bs;
      assert PrintLines(k, [text]) == [[Mark(k)] + text];
    }
  }

  lemma PrintHunkAppend(hs: seq<PHunk>, header: string, bs: seq<Block>, k: Kind, text: string)
    ensures PrintHunks(hs + [PHunk(header, AppendLine(bs, k, text))])
         == PrintHunks(hs + [PHunk(header, bs)]) + [[Mark(k)] + text]
  {
    PrintAppend(bs, k, text);
    assert (hs + [PHunk(header, bs)])[..|hs|] == hs;
    assert (hs + [PHunk(header, AppendLine(bs, k, text))])[..|hs|] == hs;
    ConcatAssociates([header], PrintBlocks(bs), [[Mark(k)] + text]);
    ConcatAssociates(PrintHunks(hs), [header] + PrintBlocks(bs), [[Mark(k)] + text]);
  }

  lemma HeadKept(s: Section, l: string)
    requires "@@" <= l
    ensures PrintHunks(s.hunks + [PHunk(l, [])]) == PrintHunks(s.hunks) + [l]
  {
    assert (s.hunks + [PHunk(l, [])])[..|s.hunks|] == s.hunks;
    assert [l] + PrintBlocks([]) == [l];
  }

  lemma BodyKept(hs: seq<PHunk>, h: PHunk, e: bool, l: string)
    requires Classify(l).Body? && l != []
    ensures var k := Classify(l).kind;
      var hs' := hs + [PHunk(h.header, AppendLine(h.blocks, k, l[1..]))];
      && UpdateLine(Section(hs + [h], e), l) == Some(Section(hs', e))
      && PrintHunks(hs') == PrintHunks(hs + [h]) + [l]
  {
    var k := Classify(l).kind;
    BodyMark(l);
    assert (hs + [h])[..|hs|] == hs;
    PrintHunkAppend(hs, h.header, h.blocks, k, l[1..]);
    assert PHunk(h.header, h.blocks) == h;
  }

  lemma BodyMark(l: string)
    requires Classify(l).Body? && l != []
    ensures l == [Mark(Classify(l).kind)] + l[1..]
  {
    ClassifyFacts(l);
  }

  lemma KeptIsBody(s: Section, l: string)
    requires UpdateLine(s, l).Some? && l != EOF && !("@@" <= l)
    ensures Classify(l).Body? && l != []
  {
    ClassifyFacts(l);
  }

  lemma LineKept(s: Section, l: string)
    requires UpdateLine(s, l).Some? && l != EOF && (s.hunks != [] || "@@" <= l)
    ensures PrintHunks(UpdateLine(s, l).value.hunks) == PrintHunks(s.hunks) + [l]
    ensures UpdateLine(s, l).value.hunks != []
  {
    if "@@" <= l {
      HunkHeadRead(s, l);
      HeadKept(s, l);
    } else {
      KeptIsBody(s, l);
      var n := |s.hunks| - 1;
      BodyKept(s.hunks[..n], s.hunks[n], s.endOfFile, l);
      assert s.hunks == s.hunks[..n] + [s.hunks[n]];
    }
  }

  /** The lines of a body that end up in hunks. */
  function WithoutEof(ls: seq<string>): seq<string> {
    if ls == [] then [] else (if ls[0] == EOF then [] else [ls[0]]) + WithoutEof(ls[1..])
  }

  /** The header that is supplied when the first such line is not one itself. */
  function ImplicitHeader(kept: seq<string>): seq<string> {
    if kept != [] && !("@@" <= kept[0]) then ["@@"] else []
  }

  lemma EofRead(s: Section, l: string)
    requires l == EOF
    ensures UpdateLine(s, l) == Some(s.(endOfFile := true))
  {
    ClassifyFacts(l);
  }

  lemma KeepsEof(s: Section, l: string)
    requires UpdateLine(s, l).Some?
    ensures UpdateLine(s, l).value.endOfFile <==> s.endOfFile || l == EOF
  {
    ClassifyFacts(l);
  }

  /** Once a hunk is open, every further line is kept. */
  lemma {:induction false} OpenKeepsLines(s: Section, ls: seq<string>)
    requires UpdateBody(Some(s), ls).Some? && s.hunks != []
    ensures PrintHunks(UpdateBody(Some(s), ls).value.hunks) == PrintHunks(s.hunks) + WithoutEof(ls)
    decreases |ls|
  {
    if ls == [] {
      assert PrintHunks(s.hunks) + [] == PrintHunks(s.hunks);
    } else if ls[0] == EOF {
      EofRead(s, ls[0]);
      OpenKeepsLines(s.(endOfFile := true), ls[1..]);
      assert [] + WithoutEof(ls[1..]) == WithoutEof(ls[1..]);
    } else {
      LineKept(s, ls[0]);
      OpenKeepsLines(UpdateLine(s, ls[0]).value, ls[1..]);
      ConcatAssociates(PrintHunks(s.hunks), [ls[0]], WithoutEof(ls[1..]));
    }
  }

  /** The first line kept opens a hunk, under its own header or an implicit one. */
  lemma FirstKept(e: bool, l: string)
    requires UpdateLine(Section([], e), l).Some? && l != EOF
    ensures UpdateLine(Section([], e), l).value.hunks != []
    ensures PrintHunks(UpdateLine(Section([], e), l).value.hunks) == ImplicitHeader([l]) + [l]
  {
    if "@@" <= l {
      LineKept(Section([], e), l);
    } else {
      KeptIsBody(Section([], e), l);
      var h := PHunk("@@", []);
      BodyKept([], h, e, l);
      assert [] + [h] == [h] && [h][..0] == [];
      assert PrintHunks([h]) == ["@@"];
    }
  }

  /** Grouping keeps the lines: the hunks of any accepted update body print back to the body without
      its end-of-file lines, behind "@@" where the first header was implicit. */
  lemma {:induction false} SectionKeepsLines(e: bool, ls: seq<string>)
    requires UpdateBody(Some(Section([], e)), ls).Some?
    ensures var kept := WithoutEof(ls);
      PrintHunks(UpdateBody(Some(Section([], e)), ls).value.hunks) == ImplicitHeader(kept) + kept
    decreases |ls|
  {
    if ls != [] {
      var rest := WithoutEof(ls[1..]);
      if ls[0] == EOF {
        EofRead(Section([], e), ls[0]);
        SectionKeepsLines(true, ls[1..]);
        assert [] + rest == rest;
      } else {
        FirstKept(e, ls[0]);
        OpenKeepsLines(UpdateLine(Section([], e), ls[0]).value, ls[1..]);
        ConcatAssociates(ImplicitHeader([ls[0]]), [ls[0]], rest);
      }
    }
  }

  /** The end-of-file mark is set exactly when such a line occurs. */
  lemma {:induction false} SectionKeepsEof(s: Section, ls: seq<string>)
    requires UpdateBody(Some(s), ls).Some?
    ensures UpdateBody(Some(s), ls).value.endOfFile <==> s.endOfFile || EOF in ls
    decreases |ls|
  {
    if ls != [] {
      KeepsEof(s, ls[0]);
      SectionKeepsEof(UpdateLine(s, ls[0]).value, ls[1..]);
      assert ls == [ls[0]] + ls[1..];
    }
  }

  // ---------------------------------------------------------------- what a hunk's text means

  /** The lines not marked with `drop`, without their marks. */
  function Unmarked(ls: seq<string>, drop: char): seq<string> {
    if ls == [] then [] else
      var l := ls[|ls| - 1];
      Unmarked(ls[..|ls| - 1], drop) + if l != [] && l[0] != drop then [l[1..]] else []
  }

  lemma {:induction false} UnmarkedConcat(a: seq<string>, b: seq<string>, drop: char)
    ensures Unmarked(a + b, drop) == Unmarked(a, drop) + Unmarked(b, drop)
  {
    if b == [] {
      assert a + b == a;
    } else {
      var m := |b| - 1;
      UnmarkedConcat(a, b[..m], drop);
      assert (a + b)[..|a + b| - 1] == a + b[..m];
    }
  }

  lemma {:induction false} UnmarkedLines(k: Kind, lines: seq<string>, drop: char)
    ensures Unmarked(PrintLines(k, lines), drop) == if Mark(k) == drop then [] else lines
  {
    if lines != [] {
      var m := |lines| - 1;
      UnmarkedLines(k, lines[..m], drop);
      assert PrintLines(k, lines)[..m] == PrintLines(k, lines[..m]);
      assert lines == lines[..m] + [lines[m]];
      assert PrintLines(k, lines)[m][1..] == lines[m];
    }
  }

  /** A hunk expects the lines its text shows without '+', and leaves those it shows without '-'. */
  lemma {:induction false} ImagesFromText(bs: seq<Block>)
    requires Known(bs)
    ensures PreImage(bs) == Unmarked(PrintBlocks(bs), '+')
    ensures PostImage(bs) == Unmarked(PrintBlocks(bs), '-')
  {
    if bs != [] {
      var m := |bs| - 1;
      ImagesFromText(bs[..m]);
      UnmarkedConcat(PrintBlocks(bs[..m]), PrintLines(bs[m].kind, bs[m].lines), '+');
      UnmarkedConcat(PrintBlocks(bs[..m]), PrintLines(bs[m].kind, bs[m].lines), '-');
      UnmarkedLines(bs[m].kind, bs[m].lines, '+');
      UnmarkedLines(bs[m].kind, bs[m].lines, '-');
      assert !bs[m].kind.Other?;
    }
  }

  // ---------------------------------------------------------------- which patches are accepted

  /** Where a line stands between the markers. */
  datatype Position = Outside | AfterUpdate | InUpdate | InAdd | Nowhere

  /** Line by line, without looking ahead: where the next line stands, or nowhere if this one is not
      allowed here. */
  function NextPlace(at: Position, l: string): Position {
    match Classify(l)
    case HeadUpdate => if at.Nowhere? then Nowhere else AfterUpdate
    case HeadAdd => if at.Nowhere? then Nowhere else InAdd
    case HeadDelete => if at.Nowhere? then Nowhere else Outside
    case HeadMove => if at.AfterUpdate? then InUpdate else Nowhere
    case EndOfFile => if at.AfterUpdate? || at.InUpdate? then InUpdate else if at.InAdd? then InAdd else Nowhere
    case HunkHead => if at.AfterUpdate? || at.InUpdate? then InUpdate else Nowhere
    case Body(k) =>
      if at.AfterUpdate? || at.InUpdate? then InUpdate else if at.InAdd? && k.Add? then InAdd else Nowhere
    case Unexpected => Nowhere
  }

  function PlaceAfter(at: Position, ls: seq<string>): Position
    decreases |ls|
  {
    if ls == [] then at else PlaceAfter(NextPlace(at, ls[0]), ls[1..])
  }

  lemma {:induction false} PlaceConcat(at: Position, a: seq<string>, b: seq<string>)
    ensures PlaceAfter(at, a + b) == PlaceAfter(PlaceAfter(at, a), b)
    decreases |a|
  {
    if a == [] {
      assert a + b == b;
    } else {
      PlaceConcat(NextPlace(at, a[0]), a[1..], b);
      assert (a + b)[1..] == a[1..] + b;
    }
  }

  lemma {:induction false} NowhereStays(ls: seq<string>)
    ensures PlaceAfter(Nowhere, ls) == Nowhere
    decreases |ls|
  {
    if ls != [] { NowhereStays(ls[1..]); }
  }

  /** At a header, or at the end, it does not matter in which section one stands. */
  lemma HeaderForgets(at: Position, ls: seq<string>)
    requires at != Nowhere && (ls == [] || IsHeader(ls[0]))
    ensures PlaceAfter(at, ls) != Nowhere <==> PlaceAfter(Outside, ls) != Nowhere
  {
  }

  lemma UpdateLinePlace(s: Section, l: string)
    requires !IsHeader(l)
    ensures NextPlace(InUpdate, l) == if UpdateLine(s, l).Some? then InUpdate else Nowhere
    ensures !(MOVE <= l) ==> NextPlace(AfterUpdate, l) == NextPlace(InUpdate, l)
  {
    ClassifyFacts(l);
  }

  lemma {:induction false} UpdateBodyPlace(s: Section, ls: seq<string>)
    requires forall i :: 0 <= i < |ls| ==> !IsHeader(ls[i])
    ensures PlaceAfter(InUpdate, ls) == if UpdateBody(Some(s), ls).Some? then InUpdate else Nowhere
    decreases |ls|
  {
    if ls != [] {
      UpdateLinePlace(s, ls[0]);
      var next := UpdateLine(s, ls[0]);
      if next.Some? {
        UpdateBodyPlace(next.value, ls[1..]);
      } else {
        NowhereStays(ls[1..]);
      }
    }
  }

  lemma AddLinePlace(s: Addition, l: string)
    requires !IsHeader(l)
    ensures NextPlace(InAdd, l) == if AddLine(s, l).Some? then InAdd else Nowhere
  {
    ClassifyFacts(l);
  }

  lemma {:induction false} AddBodyPlace(s: Addition, ls: seq<string>)
    requires forall i :: 0 <= i < |ls| ==> !IsHeader(ls[i])
    ensures PlaceAfter(InAdd, ls) == if AddBody(Some(s), ls).Some? then InAdd else Nowhere
    decreases |ls|
  {
    if ls != [] {
      AddLinePlace(s, ls[0]);
      var next := AddLine(s, ls[0]);
      if next.Some? {
        AddBodyPlace(next.value, ls[1..]);
      } else {
        NowhereStays(ls[1..]);
      }
    }
  }

  /** Behind an update header, a move line is allowed once. */
  lemma AfterMovePlace(ls: seq<string>)
    ensures PlaceAfter(AfterUpdate, ls) != Nowhere <==> PlaceAfter(InUpdate, AfterMove(ls)) != Nowhere
  {
    if ls != [] {
      ClassifyFacts(ls[0]);
      if IsHeader(ls[0]) {
        HeaderForgets(AfterUpdate, ls);
        HeaderForgets(InUpdate, ls);
      } else {
        UpdateLinePlace(Section([], false), ls[0]);
      }
    }
  }

  lemma {:induction false} UpdateAccepted(ls: seq<string>)
    requires ls != [] && UPDATE <= ls[0]
    ensures ParseOps(ls).Accepted? <==> PlaceAfter(Outside, ls) != Nowhere
    decreases |ls|, 0
  {
    ClassifyFacts(ls[0]);
    var rest := AfterMove(ls[1..]);
    var n := SectionLength(rest);
    AfterMovePlace(ls[1..]);
    SectionAccepted(InUpdate, rest, n);
    UpdateBodyPlace(Section([], false), rest[..n]);
  }

  lemma {:induction false} AddAccepted(ls: seq<string>)
    requires ls != [] && ADD <= ls[0]
    ensures ParseOps(ls).Accepted? <==> PlaceAfter(Outside, ls) != Nowhere
    decreases |ls|, 0
  {
    ClassifyFacts(ls[0]);
    var rest := ls[1..];
    var n := SectionLength(rest);
    SectionAccepted(InAdd, rest, n);
    AddBodyPlace(Addition([], false), rest[..n]);
  }

  /** A section and what follows it are judged apart. */
  lemma {:induction false} SectionAccepted(at: Position, rest: seq<string>, n: nat)
    requires n == SectionLength(rest) && (at.InUpdate? || at.InAdd?)
    ensures PlaceAfter(at, rest) != Nowhere <==>
      PlaceAfter(at, rest[..n]) != Nowhere && ParseOps(rest[n..]).Accepted?
    decreases |rest|, 2
  {
    PlaceConcat(at, rest[..n], rest[n..]);
    assert rest == rest[..n] + rest[n..];
    var mid := PlaceAfter(at, rest[..n]);
    if mid == Nowhere {
      NowhereStays(rest[n..]);
    } else {
      HeaderForgets(mid, rest[n..]);
      AcceptedIff(rest[n..]);
    }
  }

  /** The parser accepts exactly the line lists that the line-by-line rules allow. */
  lemma {:induction false} AcceptedIff(ls: seq<string>)
    ensures ParseOps(ls).Accepted? <==> PlaceAfter(Outside, ls) != Nowhere
    decreases |ls|, 1
  {
    if ls != [] {
      ClassifyFacts(ls[0]);
      if UPDATE <= ls[0] {
        UpdateAccepted(ls);
      } else if ADD <= ls[0] {
        AddAccepted(ls);
      } else if DELETE <= ls[0] {
        AcceptedIff(ls[1..]);
      } else {
        NowhereStays(ls[1..]);
      }
    }
  }

  /** `parse_patch` raises exactly when a marker is missing or some line between them is out of place. */
  lemma PatchAcceptedIff(ls: seq<string>)
    ensures Parse(ls).Accepted? <==>
      && |ls| >= 2 && ls[0] == BEGIN && ls[|ls| - 1] == END
      && PlaceAfter(Outside, ls[1..|ls| - 1]) != Nowhere
  {
    if |ls| >= 2 { AcceptedIff(ls[1..|ls| - 1]); }
  }

  /** The blocks of every accepted add body print back to the body without its end-of-file lines. */
  lemma {:induction false} AddKeepsLines(s: Addition, ls: seq<string>)
    requires AddBody(Some(s), ls).Some?
    ensures PrintBlocks(AddBody(Some(s), ls).value.blocks) == PrintBlocks(s.blocks) + WithoutEof(ls)
    ensures AddBody(Some(s), ls).value.endOfFile <==> s.endOfFile || EOF in ls
    decreases |ls|
  {
    if ls == [] {
      assert PrintBlocks(s.blocks) + [] == PrintBlocks(s.blocks);
    } else {
      var next := AddLine(s, ls[0]).value;
      AddLineKept(s, ls[0]);
      AddKeepsLines(next, ls[1..]);
      ConcatAssociates(PrintBlocks(s.blocks), if ls[0] == EOF then [] else [ls[0]], WithoutEof(ls[1..]));
      assert ls == [ls[0]] + ls[1..];
    }
  }

  lemma AddLineKept(s: Addition, l: string)
    requires AddLine(s, l).Some?
    ensures var next := AddLine(s, l).value;
      && PrintBlocks(next.blocks) == PrintBlocks(s.blocks) + (if l == EOF then [] else [l])
      && (next.endOfFile <==> s.endOfFile || l == EOF)
  {
    AddLineRead(s, l);
    if l == EOF {
      assert PrintBlocks(s.blocks) + [] == PrintBlocks(s.blocks);
    } else {
      PrintAppend(s.blocks, Add, l[1..]);
      assert l == [Mark(Add)] + l[1..];
    }
  }

  lemma AddLineRead(s: Addition, l: string)
    requires AddLine(s, l).Some?
    ensures l == EOF ==> AddLine(s, l).value == s.(endOfFile := true)
    ensures l != EOF ==>
      l != [] && l[0] == Mark(Add) && AddLine(s, l).value == s.(blocks := AppendLine(s.blocks, Add, l[1..]))
  {
    ClassifyFacts(l);
  }

  // ---------------------------------------------------------------- as written

  lemma {:induction false} SectionFrom(ls: seq<string>, i: nat)
    requires i <= |ls| && forall j :: 0 <= j < i ==> !IsHeader(ls[j])
    ensures SectionLength(ls) == i + SectionLength(ls[i..])
  {
    if i > 0 {
      SectionFrom(ls[1..], i - 1);
      assert ls[1..][i - 1..] == ls[i..];
    } else {
      assert ls[0..] == ls;
    }
  }

  lemma UpdateBodyStep(ls: seq<string>, i: nat, cur: Section, n: nat)
    requires i < n <= |ls| && UpdateBody(Some(Section([], false)), ls[..i]) == Some(cur)
    ensures UpdateBody(Some(Section([], false)), ls[..i + 1]) == UpdateLine(cur, ls[i])
    ensures UpdateLine(cur, ls[i]).None? ==> UpdateBody(Some(Section([], false)), ls[..n]).None?
  {
    assert ls[..i + 1] == ls[..i] + [ls[i]];
    UpdateBodyConcat(Some(Section([], false)), ls[..i], [ls[i]]);
    UpdateBodyOne(cur, ls[i]);
    assert ls[..n] == ls[..i + 1] + ls[i + 1..n];
    UpdateBodyConcat(Some(Section([], false)), ls[..i + 1], ls[i + 1..n]);
  }

  /** The inner loop over the body of an update; None stands for the ValueError it raises. */
  method ReadUpdate(ls: seq<string>) returns (s: Option<Section>, n: nat)
    ensures s == UpdateBody(Some(Section([], false)), ls[..SectionLength(ls)])
    ensures s.Some? ==> n == SectionLength(ls)
  {
    var cur := Section([], false);
    var i := 0;
    while i < |ls| && !IsHeader(ls[i])
      invariant 0 <= i <= |ls| && (forall j :: 0 <= j < i ==> !IsHeader(ls[j]))
      invariant UpdateBody(Some(Section([], false)), ls[..i]) == Some(cur)
    {
      var next := UpdateLine(cur, ls[i]);
      UpdateBodyStep(ls, i, cur, SectionLength(ls));
      if next.None? { return None, i; }
      cur := next.value;
      i := i + 1;
    }
    SectionFrom(ls, i);
    return Some(cur), i;
  }

  lemma AddBodyStep(ls: seq<string>, i: nat, cur: Addition, n: nat)
    requires i < n <= |ls| && AddBody(Some(Addition([], false)), ls[..i]) == Some(cur)
    ensures AddBody(Some(Addition([], false)), ls[..i + 1]) == AddLine(cur, ls[i])
    ensures AddLine(cur, ls[i]).None? ==> AddBody(Some(Addition([], false)), ls[..n]).None?
  {
    assert ls[..i + 1] == ls[..i] + [ls[i]];
    AddBodyConcat(Some(Addition([], false)), ls[..i], [ls[i]]);
    AddBodyOne(cur, ls[i]);
    assert ls[..n] == ls[..i + 1] + ls[i + 1..n];
    AddBodyConcat(Some(Addition([], false)), ls[..i + 1], ls[i + 1..n]);
  }

  /** The inner loop over the body of an add. */
  method ReadAdd(ls: seq<string>) returns (s: Option<Addition>, n: nat)
    ensures s == AddBody(Some(Addition([], false)), ls[..SectionLength(ls)])
    ensures s.Some? ==> n == SectionLength(ls)
  {
    var cur := Addition([], false);
    var i := 0;
    while i < |ls| && !IsHeader(ls[i])
      invariant 0 <= i <= |ls| && (forall j :: 0 <= j < i ==> !IsHeader(ls[j]))
      invariant AddBody(Some(Addition([], false)), ls[..i]) == Some(cur)
    {
      var next := AddLine(cur, ls[i]);
      AddBodyStep(ls, i, cur, SectionLength(ls));
      if next.None? { return None, i; }
      cur := next.value;
      i := i + 1;
    }
    SectionFrom(ls, i);
    return Some(cur), i;
  }

  function Prepend(ops: seq<Op>, rest: Parsed): Parsed {
    if rest.Accepted? then Accepted(ops + rest.ops) else ValueError
  }

  lemma PrependCons(ops: seq<Op>, op: Op, rest: Parsed)
    ensures Prepend(ops, Cons(op, rest)) == Prepend(ops + [op], rest)
  {
    if rest.Accepted? { assert ops + ([op] + rest.ops) == ops + [op] + rest.ops; }
  }

  /** `parse_patch` */
  method ParsePatch(lines: seq<string>) returns (r: Parsed)
    ensures r == Parse(lines)
  {
    if lines == [] || lines[0] != BEGIN { return ValueError; }
    if lines[|lines| - 1] != END { return ValueError; }
    assert BEGIN[4] != END[4];
    var ls := lines[1..|lines| - 1];
    r := ParseBody(ls);
  }

  /** An update from its header at index `head` on; `next` is the index behind it. */
  method TakeUpdate(body: seq<string>, head: nat) returns (op: Option<Op>, next: nat)
    requires head < |body| && UPDATE <= body[head]
    ensures op == UpdateOp(body[head], body[head + 1..])
    ensures head < next <= |body|
    ensures var rest := AfterMove(body[head + 1..]); op.Some? ==> body[next..] == rest[SectionLength(rest)..]
  {
    var moveTo := None;
    var i := head + 1;
    ghost var ls := body[i..];
    if i < |body| && MOVE <= body[i] {
      moveTo := Some(Argument(body[i], MOVE));
      i := i + 1;
    }
    assert body[i..] == AfterMove(ls) && moveTo == MoveLine(ls);
    var s, n := ReadUpdate(body[i..]);
    if s.None? { return None, i; }
    assert body[i..][n..] == body[i + n..];
    return Some(UpdateFile(Argument(body[head], UPDATE), moveTo, s.value.hunks, s.value.endOfFile)), i + n;
  }

  method TakeAdd(body: seq<string>, head: nat) returns (op: Option<Op>, next: nat)
    requires head < |body| && ADD <= body[head]
    ensures op == AddOp(body[head], body[head + 1..])
    ensures head < next <= |body|
    ensures var rest := body[head + 1..]; op.Some? ==> body[next..] == rest[SectionLength(rest)..]
  {
    var s, n := ReadAdd(body[head + 1..]);
    if s.None? { return None, head + 1; }
    assert body[head + 1..][n..] == body[head + 1 + n..];
    return Some(AddFile(Argument(body[head], ADD), s.value.blocks, s.value.endOfFile)), head + 1 + n;
  }

  /** The outer loop: index i stands at a file header, or at the end. */
  method ParseBody(body: seq<string>) returns (r: Parsed)
    ensures r == ParseOps(body)
  {
    var ops: seq<Op> := [];
    var i := 0;
    assert body[0..] == body;
    while i < |body|
      invariant i <= |body| && Prepend(ops, ParseOps(body[i..])) == ParseOps(body)
    {
      var line, op, next := body[i], None, i + 1;
      assert body[i..][0] == line && body[i..][1..] == body[i + 1..];
      if UPDATE <= line {
        op, next := TakeUpdate(body, i);
      } else if ADD <= line {
        op, next := TakeAdd(body, i);
      } else if DELETE <= line {
        op := Some(DeleteFile(Argument(line, DELETE)));
      }
      if op.None? { return ValueError; }
      PrependCons(ops, op.value, ParseOps(body[next..]));
      ops, i := ops + [op.value], next;
    }
    return Accepted(ops);
  }

  /** `changed_files_from_patch` */
  method ChangedFiles(lines: seq<string>) returns (files: seq<Change>)
    ensures files == Changes(None, lines)
  {
    files := [];
    var current: Option<string> := None;
    assert lines[0..] == lines;
    for n := 0 to |lines|
      invariant files + Changes(current, lines[n..]) == Changes(None, lines)
    {
      var l := lines[n];
      assert lines[n..][0] == l && lines[n..][1..] == lines[n + 1..];
      ghost var before, found: seq<Change> := files, [];
      ClassifyFacts(l);
      if UPDATE <= l {
        current := Some(Argument(l, UPDATE));
        found := [Updates(Argument(l, UPDATE))];
        files := files + [Updates(Argument(l, UPDATE))];
      } else if ADD <= l {
        current := None;
        found := [Adds(Argument(l, ADD))];
        files := files + [Adds(Argument(l, ADD))];
      } else if DELETE <= l {
        current := None;
        found := [Deletes(Argument(l, DELETE))];
        files := files + [Deletes(Argument(l, DELETE))];
      } else if MOVE <= l {
        var from := if current.Some? then current.value else "";
        found := [Moves(from, Argument(l, MOVE))];
        files := files + [Moves(from, Argument(l, MOVE))];
      }
      assert files == before + found;
      ConcatAssociates(before, found, Changes(current, lines[n + 1..]));
    }
    assert lines[|lines|..] == [] && files + [] == files;
  }
}
