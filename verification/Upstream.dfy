/** One handler thread's keep-alive connection to the upstream, down to the bytes left unread on it. */
module Upstream {
  import opened Common
  import opened RangeStore
  import SF = SingleFlight

  /** How the client reads one header line. */
  datatype Header = End | Length(value: Option<int>) | Other

  /** The textual side of HTTP, kept abstract: every result below holds for any reading of lines. */
  datatype Http = Http(status: seq<byte> -> Option<int>, header: seq<byte> -> Header)

  datatype Result = Ok(data: seq<byte>) | OsError | RuntimeError

  /** What the network does to one attempt: may refuse the connection, may fail the send, and
      otherwise delivers some reply bytes before going quiet. */
  datatype Attempt = Attempt(connects: bool, sends: bool, reply: seq<byte>)

  /** The connection: None when closed, otherwise the bytes received and not yet read.
      `dirtySends` counts requests sent while an earlier response was still unread. */
  datatype Client = Client(unread: Option<seq<byte>>, dirtySends: nat)

  const NEWLINE: byte := 10
  const LIMIT: nat := 65536

  /** Length of the first line, its newline included, cut off at the reader's limit; all that is
      left when no newline comes. */
  function LineLength(s: seq<byte>, limit: nat := LIMIT): (n: nat)
    ensures n <= |s| && (s != [] && limit > 0 ==> n > 0)
  {
    if s == [] || limit == 0 then 0 else if s[0] == NEWLINE then 1 else 1 + LineLength(s[1..], limit - 1)
  }

  datatype Head = Head(error: Option<Result>, contentLen: Option<int>, rest: seq<byte>)

  function ReadHeaders(http: Http, s: seq<byte>, len: Option<int>): (h: Head)
    ensures |h.rest| <= |s| && (h.error.Some? ==> !h.error.value.Ok?)
    decreases |s|
  {
    if s == [] then Head(Some(OsError), len, []) else
      var n := LineLength(s);
      match http.header(s[..n])
      case End => Head(None, len, s[n..])
      case Length(None) => Head(Some(RuntimeError), len, s[n..])
      case Length(v) => ReadHeaders(http, s[n..], v)
      case Other => ReadHeaders(http, s[n..], len)
  }

  /** Reads one response for a range of `want` bytes; also says what stays unread. */
  function ReadResponse(http: Http, s: seq<byte>, want: nat): (Result, seq<byte>) {
    if s == [] then (OsError, []) else
      var n := LineLength(s);
      var status := http.status(s[..n]);
      if status.None? then (RuntimeError, s[n..]) else
        var head := ReadHeaders(http, s[n..], None);
        if head.error.Some? then (head.error.value, head.rest)
        else if status != Some(206) || head.contentLen != Some(want) then (RuntimeError, head.rest)
        else if |head.rest| < want then (OsError, [])
        else (Ok(head.rest[..want]), head.rest[want..])
  }

  function FetchOnce(http: Http, c: Client, k: Key, at: Attempt): (Result, Client) {
    if c.unread.None? && !at.connects then (OsError, c) else
      var before := if c.unread.None? then [] else c.unread.value;
      if !at.sends then (OsError, c.(unread := Some(before))) else
        var dirty := c.dirtySends + if before == [] then 0 else 1;
        var (r, rest) := ReadResponse(http, before + at.reply, k.len);
        (r, Client(Some(rest), dirty))
  }

  /** One retry, on a fresh connection, after an operating-system error. */
  function FetchRetry(http: Http, c: Client, k: Key, first: Attempt, second: Attempt): (Result, Client) {
    var (r, c') := FetchOnce(http, c, k, first);
    if r.OsError? then FetchOnce(http, c'.(unread := None), k, second) else (r, c')
  }

  datatype Fetch = Fetch(key: Key, first: Attempt, second: Attempt)

  /** The fetches one handler thread makes: the first one that fails is its last. */
  function HandlerRun(http: Http, c: Client, fetches: seq<Fetch>): (seq<Result>, Client)
    decreases |fetches|
  {
    if fetches == [] then ([], c) else
      var f := fetches[0];
      var (r, c') := FetchRetry(http, c, f.key, f.first, f.second);
      if !r.Ok? then ([r], c') else
        var (rs, c'') := HandlerRun(http, c', fetches[1..]);
        ([r] + rs, c'')
  }

  /** The server's side of the bargain: never more body than the length it declares, and a complete
      206 of the right length carries the blob's slice. Cutting the reply short stays allowed. */
  ghost predicate Honest(http: Http, blob: seq<byte>, k: Key, reply: seq<byte>) {
    reply != [] && http.status(reply[..LineLength(reply)]).Some? ==>
      var head := ReadHeaders(http, reply[LineLength(reply)..], None);
      head.error.None? && http.status(reply[..LineLength(reply)]) == Some(206) && head.contentLen == Some(k.len) ==>
        && |head.rest| <= k.len
        && (|head.rest| == k.len ==> SF.InBlob(blob, k) && head.rest == SF.Slice(blob, k))
  }

  ghost predicate HonestFetch(http: Http, blob: seq<byte>, f: Fetch) {
    Honest(http, blob, f.key, f.first.reply) && Honest(http, blob, f.key, f.second.reply)
  }

  predicate Framed(c: Client) {
    c.unread.None? || c.unread == Some([])
  }

  ghost predicate Answer(blob: seq<byte>, k: Key, r: Result) {
    r.Ok? ==> SF.InBlob(blob, k) && r.data == SF.Slice(blob, k)
  }

  lemma ReadHonest(http: Http, blob: seq<byte>, k: Key, reply: seq<byte>)
    requires Honest(http, blob, k, reply)
    ensures var (r, rest) := ReadResponse(http, reply, k.len);
      Answer(blob, k, r) && (r.Ok? ==> rest == [])
  {
    if ReadResponse(http, reply, k.len).0.Ok? {
      var head := ReadHeaders(http, reply[LineLength(reply)..], None);
      assert head.rest[..k.len] == head.rest && head.rest[k.len..] == [];
    }
  }

  lemma FetchOnceFramed(http: Http, blob: seq<byte>, c: Client, k: Key, at: Attempt)
    requires Framed(c) && Honest(http, blob, k, at.reply)
    ensures var (r, c') := FetchOnce(http, c, k, at);
      && c'.dirtySends == c.dirtySends
      && Answer(blob, k, r)
      && (r.Ok? ==> Framed(c'))
  {
    assert [] + at.reply == at.reply;
    ReadHonest(http, blob, k, at.reply);
  }

  lemma FetchRangeFramed(http: Http, blob: seq<byte>, c: Client, f: Fetch)
    requires Framed(c) && HonestFetch(http, blob, f)
    ensures var (r, c') := FetchRetry(http, c, f.key, f.first, f.second);
      && c'.dirtySends == c.dirtySends
      && Answer(blob, f.key, r)
      && (r.Ok? ==> Framed(c'))
  {
    FetchOnceFramed(http, blob, c, f.key, f.first);
    var (r, c') := FetchOnce(http, c, f.key, f.first);
    FetchOnceFramed(http, blob, c'.(unread := None), f.key, f.second);
  }

  /** Over a whole handler thread no request goes out behind an unread response, and every range
      it gets back is the blob's own. */
  lemma {:induction false} HandlerStaysFramed(http: Http, blob: seq<byte>, c: Client, fetches: seq<Fetch>)
    requires Framed(c)
    requires forall i :: 0 <= i < |fetches| ==> HonestFetch(http, blob, fetches[i])
    ensures var (rs, c') := HandlerRun(http, c, fetches);
      && c'.dirtySends == c.dirtySends
      && |rs| <= |fetches|
      && (forall i :: 0 <= i < |rs| ==> Answer(blob, fetches[i].key, rs[i]))
      && (forall i :: 0 <= i < |rs| - 1 ==> rs[i].Ok?)
    decreases |fetches|
  {
    if fetches != [] {
      var f := fetches[0];
      FetchRangeFramed(http, blob, c, f);
      var (r, c') := FetchRetry(http, c, f.key, f.first, f.second);
      if r.Ok? {
        HandlerStaysFramed(http, blob, c', fetches[1..]);
      }
    }
  }

  // ---------------------------------------------------------------- good answers get through

  /** A line as it is sent: no newline but the last byte, and within the reader's limit. */
  predicate IsLine(l: seq<byte>) {
    0 < |l| <= LIMIT && l[|l| - 1] == NEWLINE && forall i :: 0 <= i < |l| - 1 ==> l[i] != NEWLINE
  }

  lemma {:induction false} LineRead(l: seq<byte>, rest: seq<byte>, limit: nat)
    requires 0 < |l| <= limit && l[|l| - 1] == NEWLINE && forall i :: 0 <= i < |l| - 1 ==> l[i] != NEWLINE
    ensures LineLength(l + rest, limit) == |l|
  {
    if |l| > 1 {
      LineRead(l[1..], rest, limit - 1);
      assert (l + rest)[1..] == l[1..] + rest;
    }
  }

  lemma LineSplit(l: seq<byte>, rest: seq<byte>)
    requires IsLine(l)
    ensures l + rest != [] && LineLength(l + rest) == |l|
    ensures (l + rest)[..|l|] == l && (l + rest)[|l|..] == rest
  {
    LineRead(l, rest, LIMIT);
  }

  /** Header lines of a response for `want` bytes: none is malformed, and if one gives a length it is
      the right one. */
  ghost predicate HeadersFor(http: Http, hs: seq<seq<byte>>, want: nat) {
    forall i :: 0 <= i < |hs| ==>
      IsLine(hs[i]) && (http.header(hs[i]) == Other || http.header(hs[i]) == Length(Some(want)))
  }

  ghost predicate GivesLength(http: Http, hs: seq<seq<byte>>, want: nat) {
    exists i :: 0 <= i < |hs| && http.header(hs[i]) == Length(Some(want))
  }

  function Joined(hs: seq<seq<byte>>): seq<byte> {
    if hs == [] then [] else hs[0] + Joined(hs[1..])
  }

  lemma {:induction false} HeadersRead(http: Http, hs: seq<seq<byte>>, end: seq<byte>, body: seq<byte>, want: nat,
                                       len: Option<int>)
    requires HeadersFor(http, hs, want) && IsLine(end) && http.header(end) == End
    requires GivesLength(http, hs, want) || len == Some(want)
    ensures ReadHeaders(http, Joined(hs) + end + body, len) == Head(None, Some(want), body)
    decreases |hs|
  {
    if hs == [] {
      assert Joined(hs) + end + body == end + body;
      LineSplit(end, body);
    } else {
      var rest := Joined(hs[1..]) + end + body;
      assert Joined(hs) + end + body == hs[0] + rest;
      LineSplit(hs[0], rest);
      if http.header(hs[0]) == Length(Some(want)) {
        HeadersRead(http, hs[1..], end, body, want, Some(want));
      } else {
        assert GivesLength(http, hs, want) ==> GivesLength(http, hs[1..], want) by {
          if GivesLength(http, hs, want) {
            var i :| 0 <= i < |hs| && http.header(hs[i]) == Length(Some(want));
            assert hs[1..][i - 1] == hs[i];
          }
        }
        HeadersRead(http, hs[1..], end, body, want, len);
      }
    }
  }

  /** A complete 206 for a key: status line, headers with the length, an empty line, the slice. */
  ghost predicate Complete(http: Http, blob: seq<byte>, k: Key, reply: seq<byte>) {
    SF.InBlob(blob, k) &&
    exists status, hs, end ::
      && reply == WireForm(status, hs, end, SF.Slice(blob, k))
      && IsLine(status) && http.status(status) == Some(206)
      && HeadersFor(http, hs, k.len) && GivesLength(http, hs, k.len)
      && IsLine(end) && http.header(end) == End
  }

  function WireForm(status: seq<byte>, hs: seq<seq<byte>>, end: seq<byte>, body: seq<byte>): seq<byte> {
    status + (Joined(hs) + end + body)
  }

  /** What a server sends as a complete 206 is read as exactly the slice, with nothing left over. */
  lemma CompleteIsAccepted(http: Http, blob: seq<byte>, k: Key, reply: seq<byte>)
    requires Complete(http, blob, k, reply)
    ensures ReadResponse(http, reply, k.len) == (Ok(SF.Slice(blob, k)), [])
  {
    var body := SF.Slice(blob, k);
    var status, hs, end :|
      && reply == WireForm(status, hs, end, body)
      && IsLine(status) && http.status(status) == Some(206)
      && HeadersFor(http, hs, k.len) && GivesLength(http, hs, k.len)
      && IsLine(end) && http.header(end) == End;
    LineSplit(status, Joined(hs) + end + body);
    HeadersRead(http, hs, end, body, k.len, None);
    assert body[..k.len] == body && body[k.len..] == [];
  }

  ghost predicate GoodAttempt(http: Http, blob: seq<byte>, k: Key, at: Attempt) {
    at.connects && at.sends && Complete(http, blob, k, at.reply)
  }

  /** The connection breaks before a response begins. */
  predicate BrokenAttempt(at: Attempt) { !at.sends || at.reply == [] }

  /** Keep-alive: a connection that is open needs no new one. */
  lemma GoodOnce(http: Http, blob: seq<byte>, c: Client, k: Key, at: Attempt)
    requires Framed(c) && at.sends && Complete(http, blob, k, at.reply) && (c.unread.None? ==> at.connects)
    ensures FetchOnce(http, c, k, at) == (Ok(SF.Slice(blob, k)), Client(Some([]), c.dirtySends))
  {
    assert [] + at.reply == at.reply;
    CompleteIsAccepted(http, blob, k, at.reply);
  }

  /** A fetch that the upstream answers in full, at once or on the second attempt. */
  ghost predicate GoodFetch(http: Http, blob: seq<byte>, f: Fetch) {
    || GoodAttempt(http, blob, f.key, f.first)
    || (BrokenAttempt(f.first) && GoodAttempt(http, blob, f.key, f.second))
  }

  /** The retry rescues a fetch whose first connection breaks. */
  lemma GoodFetchSucceeds(http: Http, blob: seq<byte>, c: Client, f: Fetch)
    requires Framed(c) && GoodFetch(http, blob, f)
    ensures FetchRetry(http, c, f.key, f.first, f.second) ==
      (Ok(SF.Slice(blob, f.key)), Client(Some([]), c.dirtySends))
  {
    if GoodAttempt(http, blob, f.key, f.first) {
      GoodOnce(http, blob, c, f.key, f.first);
    } else {
      BrokenOnce(http, c, f.key, f.first);
      GoodOnce(http, blob, c.(unread := None), f.key, f.second);
    }
  }

  lemma BrokenOnce(http: Http, c: Client, k: Key, at: Attempt)
    requires Framed(c) && BrokenAttempt(at)
    ensures FetchOnce(http, c, k, at).0.OsError? && FetchOnce(http, c, k, at).1.dirtySends == c.dirtySends
  {
  }

  /** A handler whose fetches are all answered in full serves every one of them with its slice. */
  lemma {:induction false} HandlerServesAll(http: Http, blob: seq<byte>, c: Client, fetches: seq<Fetch>)
    requires Framed(c)
    requires forall i :: 0 <= i < |fetches| ==> GoodFetch(http, blob, fetches[i])
    ensures var rs := HandlerRun(http, c, fetches).0;
      && |rs| == |fetches|
      && forall i :: 0 <= i < |rs| ==>
           SF.InBlob(blob, fetches[i].key) && rs[i] == Ok(SF.Slice(blob, fetches[i].key))
    decreases |fetches|
  {
    if fetches != [] {
      var f := fetches[0];
      GoodFetchSucceeds(http, blob, c, f);
      HandlerServesAll(http, blob, Client(Some([]), c.dirtySends), fetches[1..]);
      assert forall i :: 0 <= i < |fetches| - 1 ==> fetches[1..][i] == fetches[i + 1];
    }
  }

  /** A complete response head whose status is not 206. */
  ghost predicate Refusal(http: Http, reply: seq<byte>) {
    reply != [] &&
    var n := LineLength(reply);
    http.status(reply[..n]).Some? && http.status(reply[..n]) != Some(206)
    && ReadHeaders(http, reply[n..], None).error.None?
  }

  function BodyOf(http: Http, reply: seq<byte>): seq<byte> {
    ReadHeaders(http, reply[LineLength(reply)..], None).rest
  }

  lemma RefusedOnce(http: Http, c: Client, k: Key, at: Attempt)
    requires Framed(c) && at.connects && at.sends && Refusal(http, at.reply)
    ensures FetchOnce(http, c, k, at) == (RuntimeError, Client(Some(BodyOf(http, at.reply)), c.dirtySends))
  {
    assert [] + at.reply == at.reply;
  }

  lemma DirtySend(http: Http, c: Client, k: Key, at: Attempt)
    requires c.unread.Some? && at.sends
    ensures FetchOnce(http, c, k, at).1.dirtySends == c.dirtySends + if c.unread.value == [] then 0 else 1
  {
  }

  /** Why the handler must stop there: a refused range is not tried again, whatever a second attempt
      would bring, and leaves the refusal's body unread; any later request on that connection would go
      out behind it, whatever is asked next. */
  lemma RefusalLeavesItsBody(http: Http, c: Client, k: Key, at: Attempt, second: Attempt, k2: Key, next: Attempt)
    requires Framed(c) && at.connects && at.sends && Refusal(http, at.reply) && next.sends
    ensures var body := BodyOf(http, at.reply);
      var (r, c') := FetchRetry(http, c, k, at, second);
      && r.RuntimeError? && c'.unread == Some(body)
      && FetchOnce(http, c', k2, next).1.dirtySends == c.dirtySends + if body == [] then 0 else 1
  {
    RefusedOnce(http, c, k, at);
    DirtySend(http, FetchOnce(http, c, k, at).1, k2, next);
  }

  /** The object a handler thread keeps in its thread-local slot. */
  class UpstreamRangeClient {
    var stream: Option<seq<byte>>
    var dirtySends: nat

    function View(): Client
      reads this
    {
      Client(stream, dirtySends)
    }

    constructor ()
      ensures View() == Client(None, 0) && Framed(View())
    {
      stream, dirtySends := None, 0;
    }

    method Close()
      modifies this
      ensures View() == old(View()).(unread := None)
    {
      stream := None;
    }

    method FetchRangeOnce(http: Http, k: Key, at: Attempt) returns (r: Result)
      modifies this
      ensures (r, View()) == FetchOnce(http, old(View()), k, at)
    {
      if stream.None? {
        if !at.connects { return OsError; }
        stream := Some([]);
      }
      if !at.sends { return OsError; }
      if stream.value != [] { dirtySends := dirtySends + 1; }
      var (answer, rest) := ReadResponse(http, stream.value + at.reply, k.len);
      stream := Some(rest);
      return answer;
    }

    method FetchRange(http: Http, k: Key, first: Attempt, second: Attempt) returns (r: Result)
      modifies this
      ensures (r, View()) == FetchRetry(http, old(View()), k, first, second)
    {
      r := FetchRangeOnce(http, k, first);
      if r.OsError? {
        Close();
        r := FetchRangeOnce(http, k, second);
      }
    }
  }

  /** `handle`, as far as it touches the upstream: serve requests until one of them fails. */
  method Handle(http: Http, client: UpstreamRangeClient, fetches: seq<Fetch>) returns (rs: seq<Result>)
    modifies client
    ensures (rs, client.View()) == HandlerRun(http, old(client.View()), fetches)
  {
    rs := [];
    var i := 0;
    assert fetches[0..] == fetches;
    assert rs + HandlerRun(http, client.View(), fetches).0 == HandlerRun(http, client.View(), fetches).0;
    while i < |fetches|
      invariant 0 <= i <= |fetches|
      invariant var (tail, c) := HandlerRun(http, client.View(), fetches[i..]);
        (rs + tail, c) == HandlerRun(http, old(client.View()), fetches)
    {
      var f := fetches[i];
      assert fetches[i..][0] == f && fetches[i..][1..] == fetches[i + 1..];
      ghost var before := client.View();
      ghost var sofar := rs;
      var r := client.FetchRange(http, f.key, f.first, f.second);
      rs := rs + [r];
      if !r.Ok? {
        return;
      }
      assert sofar + ([r] + HandlerRun(http, client.View(), fetches[i + 1..]).0)
          == rs + HandlerRun(http, client.View(), fetches[i + 1..]).0;
      i := i + 1;
    }
    assert fetches[i..] == [];
    assert rs + [] == rs;
  }
}
