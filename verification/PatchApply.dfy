/** Applying the hunks of a recorded patch to the lines of a file, and back to its text. */
module PatchApply {
  import opened Common

  datatype Kind = Context | Add | Delete | Other

  datatype Block = Block(kind: Kind, lines: seq<string>)

  type Hunk = seq<Block>

  predicate Known(h: Hunk) {
    forall i :: 0 <= i < |h| ==> !h[i].kind.Other?
  }

  /** What a hunk expects to find, and what it leaves behind. */
  function PreImage(h: Hunk): seq<string> {
    if h == [] then [] else
      PreImage(h[..|h| - 1]) + if h[|h| - 1].kind.Context? || h[|h| - 1].kind.Delete? then h[|h| - 1].lines else []
  }

  function PostImage(h: Hunk): seq<string> {
    if h == [] then [] else
      PostImage(h[..|h| - 1]) + if h[|h| - 1].kind.Context? || h[|h| - 1].kind.Add? then h[|h| - 1].lines else []
  }

  predicate MatchAt(hay: seq<string>, needle: seq<string>, i: int) {
    0 <= i && i + |needle| <= |hay| && hay[i..i + |needle|] == needle
  }

  /** Leftmost match at or after `from`. */
  function FirstMatch(hay: seq<string>, needle: seq<string>, from: nat): (r: Option<nat>)
    ensures r.Some? ==> from <= r.value && MatchAt(hay, needle, r.value)
                        && forall j :: from <= j < r.value ==> !MatchAt(hay, needle, j)
    ensures r.None? ==> forall j :: from <= j ==> !MatchAt(hay, needle, j)
    decreases |hay| - from
  {
    if from + |needle| > |hay| then None
    else if MatchAt(hay, needle, from) then Some(from)
    else FirstMatch(hay, needle, from + 1)
  }

  /** Where a hunk goes: the leftmost match at or after the cursor, else the leftmost overall; a hunk
      that expects nothing goes at the cursor. */
  function Place(lines: seq<string>, pre: seq<string>, cursor: nat): Option<nat> {
    if pre == [] then Some(cursor)
    else if FirstMatch(lines, pre, cursor).Some? then FirstMatch(lines, pre, cursor)
    else FirstMatch(lines, pre, 0)
  }

  function Splice(lines: seq<string>, at: nat, n: nat, post: seq<string>): seq<string>
    requires at + n <= |lines|
  {
    lines[..at] + post + lines[at + n..]
  }

  datatype Applied = Ok(lines: seq<string>, cursor: nat) | PatchError

  lemma PlaceInBounds(lines: seq<string>, pre: seq<string>, cursor: nat)
    requires cursor <= |lines| && Place(lines, pre, cursor).Some?
    ensures var m := Place(lines, pre, cursor).value;
      MatchAt(lines, pre, m)
  {
    if pre == [] { assert lines[cursor..cursor] == []; }
  }

  function ApplyHunk(lines: seq<string>, h: Hunk, cursor: nat): (r: Applied)
    requires cursor <= |lines|
    ensures r.Ok? ==> r.cursor <= |r.lines|
  {
    var pre, post := PreImage(h), PostImage(h);
    if !Known(h) || Place(lines, pre, cursor).None? then PatchError else
      PlaceInBounds(lines, pre, cursor);
      var m := Place(lines, pre, cursor).value;
      Ok(Splice(lines, m, |pre|, post), m + |post|)
  }

  /** A hunk is accepted exactly when its block types are known and what it expects is nothing, or is
      found somewhere; one that expects nothing goes in at the cursor. */
  lemma HunkAcceptedIff(lines: seq<string>, h: Hunk, cursor: nat)
    requires cursor <= |lines|
    ensures var pre, r := PreImage(h), ApplyHunk(lines, h, cursor);
      && (r.Ok? <==> Known(h) && (pre == [] || exists j :: 0 <= j && MatchAt(lines, pre, j)))
      && (r.Ok? && pre == [] ==>
            r.lines == lines[..cursor] + PostImage(h) + lines[cursor..] && r.cursor == cursor + |PostImage(h)|)
  {
    var pre := PreImage(h);
    if pre != [] && Place(lines, pre, cursor).Some? {
      PlaceInBounds(lines, pre, cursor);
    }
  }

  // ---------------------------------------------------------------- invertible

  function Flip(k: Kind): Kind {
    match k
    case Add => Delete
    case Delete => Add
    case Context => Context
    case Other => Other
  }

  /** The hunk with additions and deletions exchanged. */
  function Swap(h: Hunk): Hunk {
    seq(|h|, i requires 0 <= i < |h| => Block(Flip(h[i].kind), h[i].lines))
  }

  lemma {:induction false} SwapImages(h: Hunk)
    ensures PreImage(Swap(h)) == PostImage(h) && PostImage(Swap(h)) == PreImage(h)
  {
    if h != [] {
      SwapImages(h[..|h| - 1]);
      assert Swap(h)[..|h| - 1] == Swap(h[..|h| - 1]);
    }
  }

  lemma SwapKnown(h: Hunk)
    requires Known(h)
    ensures Known(Swap(h))
  {
    forall i | 0 <= i < |h| ensures !Swap(h)[i].kind.Other? {
      assert !h[i].kind.Other?;
    }
  }

  lemma SpliceBack(lines: seq<string>, at: nat, pre: seq<string>, post: seq<string>)
    requires MatchAt(lines, pre, at)
    ensures var after := Splice(lines, at, |pre|, post);
      MatchAt(after, post, at) && Splice(after, at, |post|, pre) == lines
  {
    var after := Splice(lines, at, |pre|, post);
    assert after[at..at + |post|] == post;
    assert after[..at] == lines[..at];
    assert after[at + |post|..] == lines[at + |pre|..];
    assert lines == lines[..at] + lines[at..at + |pre|] + lines[at + |pre|..];
  }

  /** Applying the swapped hunk at the place where the hunk went restores the lines. */
  lemma HunkInvertible(lines: seq<string>, h: Hunk, cursor: nat)
    requires cursor <= |lines| && ApplyHunk(lines, h, cursor).Ok?
    ensures var m := Place(lines, PreImage(h), cursor).value;
      var after := ApplyHunk(lines, h, cursor).lines;
      m <= |after| && ApplyHunk(after, Swap(h), m) == Ok(lines, m + |PreImage(h)|)
  {
    var pre, post := PreImage(h), PostImage(h);
    var m := Place(lines, pre, cursor).value;
    PlaceInBounds(lines, pre, cursor);
    SwapImages(h);
    SwapKnown(h);
    SpliceBack(lines, m, pre, post);
  }

  /** Local: outside the matched window nothing changes, inside it stands the post-image, and the
      window is the leftmost match at or after the cursor, or else the leftmost of all. */
  lemma HunkLocal(lines: seq<string>, h: Hunk, cursor: nat)
    requires cursor <= |lines| && ApplyHunk(lines, h, cursor).Ok?
    ensures var pre, post := PreImage(h), PostImage(h);
      var m := Place(lines, pre, cursor).value;
      var r := ApplyHunk(lines, h, cursor);
      && MatchAt(lines, pre, m)
      && |r.lines| == |lines| - |pre| + |post| && r.cursor == m + |post|
      && r.lines[..m] == lines[..m] && r.lines[m..m + |post|] == post
      && r.lines[m + |post|..] == lines[m + |pre|..]
      && (pre != [] && m >= cursor ==> forall j :: cursor <= j < m ==> !MatchAt(lines, pre, j))
      && (pre != [] && m < cursor ==>
            (forall j :: cursor <= j ==> !MatchAt(lines, pre, j)) && forall j :: 0 <= j < m ==> !MatchAt(lines, pre, j))
  {
    PlaceInBounds(lines, PreImage(h), cursor);
  }

  // ---------------------------------------------------------------- several hunks

  /** `apply_update`'s loop: each hunk starts from where the one before ended. */
  function ApplyAll(lines: seq<string>, hs: seq<Hunk>, cursor: nat): (r: Applied)
    requires cursor <= |lines|
    ensures r.Ok? ==> r.cursor <= |r.lines|
    decreases |hs|
  {
    if hs == [] then Ok(lines, cursor) else
      var r := ApplyHunk(lines, hs[0], cursor);
      if r.PatchError? then PatchError else ApplyAll(r.lines, hs[1..], r.cursor)
  }

  /** Where each hunk of a successful update went. */
  function Places(lines: seq<string>, hs: seq<Hunk>, cursor: nat): (ps: seq<nat>)
    requires cursor <= |lines| && ApplyAll(lines, hs, cursor).Ok?
    ensures |ps| == |hs|
    decreases |hs|
  {
    if hs == [] then [] else
      var r := ApplyHunk(lines, hs[0], cursor);
      [Place(lines, PreImage(hs[0]), cursor).value] + Places(r.lines, hs[1..], r.cursor)
  }

  /** Undo the last hunk first, each at the place it went to. */
  function UndoAll(lines: seq<string>, hs: seq<Hunk>, ps: seq<nat>): Option<seq<string>>
    requires |ps| == |hs|
    decreases |hs|
  {
    if hs == [] then Some(lines) else
      var later := UndoAll(lines, hs[1..], ps[1..]);
      if later.None? || ps[0] > |later.value| then None else
        var r := ApplyHunk(later.value, Swap(hs[0]), ps[0]);
        if r.Ok? then Some(r.lines) else None
  }

  /** A whole successful update can be undone, hunk by hunk from the last to the first. */
  lemma {:induction false} UpdateInvertible(lines: seq<string>, hs: seq<Hunk>, cursor: nat)
    requires cursor <= |lines| && ApplyAll(lines, hs, cursor).Ok?
    ensures UndoAll(ApplyAll(lines, hs, cursor).lines, hs, Places(lines, hs, cursor)) == Some(lines)
    decreases |hs|
  {
    if hs != [] {
      var r := ApplyHunk(lines, hs[0], cursor);
      UpdateInvertible(r.lines, hs[1..], r.cursor);
      HunkInvertible(lines, hs[0], cursor);
      var ps := Places(lines, hs, cursor);
      assert ps[1..] == Places(r.lines, hs[1..], r.cursor);
    }
  }

  /** Where the search for hunk n begins: behind the window of the hunk before. */
  function SearchFrom(hs: seq<Hunk>, ps: seq<nat>, cursor: nat, n: nat): nat
    requires |ps| == |hs| && n < |hs|
  {
    if n == 0 then cursor else ps[n - 1] + |PostImage(hs[n - 1])|
  }

  /** m is where a pre-image goes when the search begins at `from`. */
  ghost predicate PlacedFrom(lines: seq<string>, pre: seq<string>, from: nat, m: nat) {
    && from <= |lines| && MatchAt(lines, pre, m)
    && (pre == [] ==> m == from)
    && (pre != [] && m >= from ==> forall j :: from <= j < m ==> !MatchAt(lines, pre, j))
    && (m < from ==>
          (forall j :: from <= j ==> !MatchAt(lines, pre, j)) && forall j :: 0 <= j < m ==> !MatchAt(lines, pre, j))
  }

  /** Hunks go one behind the other: hunk n is matched against the lines the hunks before it left, first
      behind the window of the hunk before, and only if nothing matches there from the start. */
  lemma {:induction false} HunksInSequence(lines: seq<string>, hs: seq<Hunk>, cursor: nat, n: nat)
    requires cursor <= |lines| && ApplyAll(lines, hs, cursor).Ok? && n < |hs|
    ensures var before, ps := ApplyAll(lines, hs[..n], cursor), Places(lines, hs, cursor);
      before.Ok? && PlacedFrom(before.lines, PreImage(hs[n]), SearchFrom(hs, ps, cursor, n), ps[n])
    decreases |hs|
  {
    var r, ps := ApplyHunk(lines, hs[0], cursor), Places(lines, hs, cursor);
    var tail := Places(r.lines, hs[1..], r.cursor);
    if n == 0 {
      PlaceInBounds(lines, PreImage(hs[0]), cursor);
    } else {
      HunksInSequence(r.lines, hs[1..], r.cursor, n - 1);
      assert hs[..n][1..] == hs[1..][..n - 1] && hs[..n][0] == hs[0];
      assert ps[1..] == tail;
      assert SearchFrom(hs, ps, cursor, n) == SearchFrom(hs[1..], tail, r.cursor, n - 1);
    }
  }

  predicate AllContext(hs: seq<Hunk>) {
    forall i, j :: 0 <= i < |hs| && 0 <= j < |hs[i]| ==> hs[i][j].kind.Context?
  }

  lemma {:induction false} ContextImages(h: Hunk)
    requires forall j :: 0 <= j < |h| ==> h[j].kind.Context?
    ensures PreImage(h) == PostImage(h)
  {
    if h != [] { ContextImages(h[..|h| - 1]); }
  }

  lemma {:induction false} ContextChangesNoLine(lines: seq<string>, hs: seq<Hunk>, cursor: nat)
    requires cursor <= |lines| && AllContext(hs) && ApplyAll(lines, hs, cursor).Ok?
    ensures ApplyAll(lines, hs, cursor).lines == lines
    decreases |hs|
  {
    if hs != [] {
      var pre := PreImage(hs[0]);
      ContextImages(hs[0]);
      PlaceInBounds(lines, pre, cursor);
      SpliceSame(lines, Place(lines, pre, cursor).value, pre);
      ContextChangesNoLine(lines, hs[1..], ApplyHunk(lines, hs[0], cursor).cursor);
    }
  }

  lemma SpliceSame(lines: seq<string>, at: nat, pre: seq<string>)
    requires MatchAt(lines, pre, at)
    ensures Splice(lines, at, |pre|, pre) == lines
  {
    assert lines == lines[..at] + lines[at..at + |pre|] + lines[at + |pre|..];
  }

  // ---------------------------------------------------------------- text

  /** `text.split("\n")` */
  function Split(s: string): (ls: seq<string>)
    ensures |ls| >= 1
  {
    if s == [] then [[]]
    else if s[0] == '\n' then [[]] + Split(s[1..])
    else
      var rest := Split(s[1..]);
      [[s[0]] + rest[0]] + rest[1..]
  }

  /** `"\n".join(lines)` */
  function Join(ls: seq<string>): string {
    if ls == [] then [] else if |ls| == 1 then ls[0] else ls[0] + ['\n'] + Join(ls[1..])
  }

  lemma {:induction false} JoinSplit(s: string)
    ensures Join(Split(s)) == s
  {
    if s != [] {
      JoinSplit(s[1..]);
      var rest := Split(s[1..]);
      if s[0] == '\n' {
        assert Split(s)[1..] == rest;
      } else {
        assert Split(s)[1..] == rest[1..] && Split(s)[0] == [s[0]] + rest[0];
      }
      assert s == [s[0]] + s[1..];
    }
  }

  lemma {:induction false} SplitLines(s: string, i: nat)
    requires i < |Split(s)|
    ensures '\n' !in Split(s)[i]
  {
    if s != [] {
      var rest := Split(s[1..]);
      if s[0] == '\n' {
        if i > 0 { SplitLines(s[1..], i - 1); }
      } else {
        SplitLines(s[1..], i);
        assert i > 0 ==> Split(s)[i] == rest[i];
      }
    }
  }

  /** A final newline shows up as one more, empty, line. */
  lemma {:induction false} SplitFinalNewline(s: string)
    ensures Split(s + ['\n']) == Split(s) + [[]]
  {
    if s == [] {
      assert [] + ['\n'] == ['\n'] && ['\n'][1..] == [];
    } else {
      SplitFinalNewline(s[1..]);
      assert (s + ['\n'])[1..] == s[1..] + ['\n'];
    }
  }

  predicate EndsWithNewline(s: string) { s != [] && s[|s| - 1] == '\n' }

  /** The lines `apply_update` edits: without the empty string after a final newline. */
  function LinesOf(text: string): seq<string> {
    if EndsWithNewline(text) then Split(text)[..|Split(text)| - 1] else Split(text)
  }

  /** The text it writes back. */
  function TextOf(lines: seq<string>, hadNewline: bool): string {
    var body := Join(lines);
    if hadNewline && body != [] && !EndsWithNewline(body) then body + ['\n'] else body
  }

  datatype Updated = Text(text: string) | Rejected

  function Update(text: string, hs: seq<Hunk>): Updated {
    var r := ApplyAll(LinesOf(text), hs, 0);
    if r.Ok? then Text(TextOf(r.lines, EndsWithNewline(text))) else Rejected
  }

  /** The last line of a file that ends in a newline is not empty. */
  predicate LastLineShown(text: string) {
    |text| >= 2 && text[|text| - 2] != '\n'
  }

  lemma BodyOf(text: string)
    requires EndsWithNewline(text)
    ensures Join(LinesOf(text)) == text[..|text| - 1]
  {
    var body := text[..|text| - 1];
    assert text == body + ['\n'];
    SplitFinalNewline(body);
    assert LinesOf(text) == Split(body);
    JoinSplit(body);
  }

  /** An update made of context only leaves the text as it was exactly when the file does not end in
      a newline or its last line is not empty; otherwise a trailing newline is lost. */
  lemma ContextOnlyUpdate(text: string, hs: seq<Hunk>)
    requires AllContext(hs) && Update(text, hs).Text?
    ensures Update(text, hs).text == text <==> (EndsWithNewline(text) ==> LastLineShown(text))
    ensures Update(text, hs).text == text || Update(text, hs).text == text[..|text| - 1]
  {
    ContextChangesNoLine(LinesOf(text), hs, 0);
    if EndsWithNewline(text) {
      BodyOf(text);
      var body := text[..|text| - 1];
      assert text == body + ['\n'];
    } else {
      JoinSplit(text);
    }
  }

  /** A file that does not survive an update without hunks: it ends in a blank line. */
  lemma TrailingBlankLineLost()
    ensures AllContext([]) && Update("a\n\n", []) == Text("a\n")
  {
    var text := "a\n\n";
    ContextOnlyUpdate(text, []);
    assert EndsWithNewline(text) && !LastLineShown(text);
    assert text[..2] == "a\n";
  }

  // ---------------------------------------------------------------- as written

  /** `find_subsequence` */
  method FindSubsequence(hay: seq<string>, needle: seq<string>, start: nat) returns (at: int)
    ensures needle == [] ==> at == start
    ensures needle != [] ==>
      var r := FirstMatch(hay, needle, start);
      at == if r.Some? then r.value else -1
  {
    if needle == [] { return start; }
    var i := start;
    while i + |needle| <= |hay|
      invariant start <= i && FirstMatch(hay, needle, start) == FirstMatch(hay, needle, i)
      decreases |hay| - i
    {
      if hay[i..i + |needle|] == needle { return i; }
      i := i + 1;
    }
    return -1;
  }

  /** The loop over a hunk's blocks; an unknown block type is an error. */
  method Images(h: Hunk) returns (known: bool, pre: seq<string>, post: seq<string>)
    ensures known <==> Known(h)
    ensures known ==> pre == PreImage(h) && post == PostImage(h)
  {
    known, pre, post := true, [], [];
    for n := 0 to |h|
      invariant known && pre == PreImage(h[..n]) && post == PostImage(h[..n]) && Known(h[..n])
    {
      var b := h[n];
      assert h[..n + 1][..n] == h[..n];
      match b.kind {
        case Context => pre, post := pre + b.lines, post + b.lines;
        case Delete => pre := pre + b.lines;
        case Add => post := post + b.lines;
        case Other => return false, [], [];
      }
    }
    assert h[..|h|] == h;
  }

  /** The list of lines that `apply_update` edits in place. */
  class Editor {
    var lines: seq<string>

    constructor (text: string)
      ensures lines == LinesOf(text)
    {
      lines := LinesOf(text);
    }

    /** `lines.insert(at + i, line)` for each line in turn. */
    method InsertAll(at: nat, post: seq<string>)
      requires at <= |lines|
      modifies this
      ensures lines == Splice(old(lines), at, 0, post)
    {
      var i := 0;
      assert lines == Splice(lines, at, 0, post[..0]);
      while i < |post|
        invariant 0 <= i <= |post| && lines == Splice(old(lines), at, 0, post[..i])
      {
        lines := lines[..at + i] + [post[i]] + lines[at + i..];
        assert post[..i + 1] == post[..i] + [post[i]];
        i := i + 1;
      }
      assert post[..i] == post;
    }

    method Apply(h: Hunk, cursor: nat) returns (r: Applied)
      requires cursor <= |lines|
      modifies this
      ensures r == ApplyHunk(old(lines), h, cursor)
      ensures lines == if r.Ok? then r.lines else old(lines)
    {
      var known, pre, post := Images(h);
      if !known { return PatchError; }
      if pre == [] {
        InsertAll(cursor, post);
        return Ok(lines, cursor + |post|);
      }
      var at := FindSubsequence(lines, pre, cursor);
      if at < 0 { at := FindSubsequence(lines, pre, 0); }
      if at < 0 { return PatchError; }
      lines := lines[..at] + post + lines[at + |pre|..];
      return Ok(lines, at + |post|);
    }
  }

  /** `apply_update` on the file's text: all hunks or, on the first that fails, nothing. */
  method ApplyUpdate(text: string, hs: seq<Hunk>) returns (r: Updated)
    ensures r == Update(text, hs)
  {
    var ed := new Editor(text);
    var cursor: nat := 0;
    assert hs[0..] == hs;
    for n := 0 to |hs|
      invariant cursor <= |ed.lines| && ApplyAll(ed.lines, hs[n..], cursor) == ApplyAll(LinesOf(text), hs, 0)
    {
      assert hs[n..][0] == hs[n] && hs[n..][1..] == hs[n + 1..];
      var a := ed.Apply(hs[n], cursor);
      if a.PatchError? { return Rejected; }
      cursor := a.cursor;
    }
    var body := Join(ed.lines);
    if EndsWithNewline(text) && body != [] && !EndsWithNewline(body) { body := body + ['\n']; }
    return Text(body);
  }
}
