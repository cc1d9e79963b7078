/** Bounded capture of job output: `OutputCapture` keeps the tail of a byte stream under a byte cap
    and a line cap, and accounts for everything it drops. */
module Capture {
  import opened Bytes

  const NEWLINE: Byte := 10

  datatype Caps = Caps(maxBytes: nat, maxLines: nat) {
    function ByteSlack(): nat { if maxBytes / 8 > 65536 then maxBytes / 8 else 65536 }
    function LineSlack(): nat { if maxLines / 8 > 1024 then maxLines / 8 else 1024 }
  }

  function Newlines(b: seq<Byte>): nat {
    if b == [] then 0 else (if b[0] == NEWLINE then 1 else 0) + Newlines(b[1..])
  }

  lemma {:induction false} NewlinesSplit(a: seq<Byte>, b: seq<Byte>)
    ensures Newlines(a + b) == Newlines(a) + Newlines(b)
  {
    if a == [] {
      assert a + b == b;
    } else {
      assert (a + b)[1..] == a[1..] + b;
      NewlinesSplit(a[1..], b);
    }
  }

  lemma NewlinesCut(b: seq<Byte>, c: nat)
    requires c <= |b|
    ensures Newlines(b) == Newlines(b[..c]) + Newlines(b[c..])
  {
    assert b == b[..c] + b[c..];
    NewlinesSplit(b[..c], b[c..]);
  }

  /** Length of the shortest prefix of `b` that holds `n` newlines. */
  function ThroughNewline(b: seq<Byte>, n: nat): (r: nat)
    requires 0 < n <= Newlines(b)
    ensures 0 < r <= |b| && b[r - 1] == NEWLINE
    ensures Newlines(b[..r]) == n
    ensures forall c | 0 <= c < r :: Newlines(b[..c]) < n
  {
    if b[0] == NEWLINE && n == 1 then
      assert b[..1] == [b[0]] && b[..0] == []; 1
    else
      var m := if b[0] == NEWLINE then n - 1 else n;
      var k := ThroughNewline(b[1..], m);
      assert b[..1 + k] == [b[0]] + b[1..][..k];
      assert forall c | 0 < c < 1 + k :: b[..c] == [b[0]] + b[1..][..c - 1];
      1 + k
  }

  /** How many bytes `trim` drops from the front. */
  function TrimCut(buf: seq<Byte>, caps: Caps): nat {
    var cut := ByteCut(buf, caps);
    var after := Newlines(buf[cut..]);
    if after > caps.maxLines then cut + ThroughNewline(buf[cut..], after - caps.maxLines) else cut
  }

  /** The byte-cap half of the cut: past the first newline of the last `maxBytes` bytes. */
  function ByteCut(buf: seq<Byte>, caps: Caps): (cut: nat)
    ensures cut <= |buf|
  {
    if |buf| <= caps.maxBytes then 0
    else
      var window := |buf| - caps.maxBytes;
      if Newlines(buf[window..]) > 0 then window + ThroughNewline(buf[window..], 1) else |buf|
  }

  /** A cut that leaves whole lines (or nothing) and honours both caps. */
  ghost predicate Legal(buf: seq<Byte>, caps: Caps, cut: nat) {
    && cut <= |buf|
    && (cut == 0 || cut == |buf| || buf[cut - 1] == NEWLINE)
    && |buf| - cut <= caps.maxBytes
    && Newlines(buf[cut..]) <= caps.maxLines
  }

  lemma TrimIsLegal(buf: seq<Byte>, caps: Caps)
    ensures Legal(buf, caps, TrimCut(buf, caps))
  {
    var cut := ByteCut(buf, caps);
    var after := Newlines(buf[cut..]);
    if after > caps.maxLines {
      var k := ThroughNewline(buf[cut..], after - caps.maxLines);
      NewlinesCut(buf[cut..], k);
      assert buf[cut..][k..] == buf[cut + k..];
    }
  }

  /** The byte just before the retained window ends a line, and that window already meets the line
      cap: cutting there would have been legal, but `trim` searches strictly past it. */
  predicate WindowStartsALine(buf: seq<Byte>, caps: Caps) {
    && 0 < caps.maxBytes < |buf|
    && buf[|buf| - caps.maxBytes - 1] == NEWLINE
    && Newlines(buf[|buf| - caps.maxBytes..]) <= caps.maxLines
  }

  /** `trim` keeps as much as any legal cut could, except exactly when the window starts a line. */
  lemma TrimKeepsMost(buf: seq<Byte>, caps: Caps)
    ensures (forall c: nat | Legal(buf, caps, c) :: TrimCut(buf, caps) <= c) <==> !WindowStartsALine(buf, caps)
  {
    if WindowStartsALine(buf, caps) {
      var w := |buf| - caps.maxBytes;
      assert Legal(buf, caps, w) && w < TrimCut(buf, caps);
    } else {
      forall c: nat | Legal(buf, caps, c) ensures TrimCut(buf, caps) <= c { NoEarlierCut(buf, caps, c); }
    }
  }

  lemma NewlineWithin(b: seq<Byte>, i: nat)
    requires i < |b| && b[i] == NEWLINE
    ensures Newlines(b[..i + 1]) > 0 && Newlines(b) > 0
  {
    NewlinesCut(b, i + 1);
    NewlinesCut(b[..i + 1], i);
    assert b[..i + 1][i..] == [NEWLINE];
  }

  lemma NewlinesMonotone(b: seq<Byte>, c: nat, d: nat)
    requires c <= d <= |b|
    ensures Newlines(b[..c]) <= Newlines(b[..d])
  {
    NewlinesCut(b[..d], c);
    assert b[..d][..c] == b[..c];
  }

  lemma NoEarlierCut(buf: seq<Byte>, caps: Caps, c: nat)
    requires Legal(buf, caps, c) && !WindowStartsALine(buf, caps)
    ensures TrimCut(buf, caps) <= c
  {
    var cut := ByteCut(buf, caps);
    if c < cut {
      var w := |buf| - caps.maxBytes;
      assert w < c;
      NewlineWithin(buf[w..], c - w - 1);
    } else {
      NewlinesCut(buf[cut..], c - cut);
      assert buf[cut..][c - cut..] == buf[c..];
    }
  }

  // ---- The running state, as a value ----

  datatype Held = Held(buf: seq<Byte>, lines: nat, droppedBytes: nat, droppedLines: nat)

  const EMPTY := Held([], 0, 0, 0)

  /** What `h` must be after taking in `stream`, however it was chunked. */
  ghost predicate Accounts(h: Held, stream: seq<Byte>) {
    && |h.buf| <= |stream|
    && h.buf == stream[|stream| - |h.buf|..]
    && h.droppedBytes + |h.buf| == |stream|
    && h.lines == Newlines(h.buf)
    && h.droppedLines + h.lines == Newlines(stream)
  }

  function Trimmed(h: Held, caps: Caps): Held
    requires h.lines == Newlines(h.buf)
  {
    var cut := TrimCut(h.buf, caps);
    TrimIsLegal(h.buf, caps);
    NewlinesCut(h.buf, cut);
    Held(h.buf[cut..], h.lines - Newlines(h.buf[..cut]), h.droppedBytes + cut,
         h.droppedLines + Newlines(h.buf[..cut]))
  }

  predicate Overshoots(h: Held, caps: Caps) {
    |h.buf| > caps.maxBytes + caps.ByteSlack() || h.lines > caps.maxLines + caps.LineSlack()
  }

  function Pushed(h: Held, caps: Caps, chunk: seq<Byte>): (r: Held)
    requires h.lines == Newlines(h.buf)
    ensures r.lines == Newlines(r.buf)
  {
    NewlinesSplit(h.buf, chunk);
    var full := h.(buf := h.buf + chunk, lines := h.lines + Newlines(chunk));
    if Overshoots(full, caps) then
      NewlinesCut(full.buf, TrimCut(full.buf, caps));
      Trimmed(full, caps)
    else full
  }

  function PushedAll(caps: Caps, chunks: seq<seq<Byte>>): (h: Held)
    ensures h.lines == Newlines(h.buf)
  {
    if chunks == [] then EMPTY
    else Pushed(PushedAll(caps, chunks[..|chunks| - 1]), caps, chunks[|chunks| - 1])
  }

  function Stream(chunks: seq<seq<Byte>>): seq<Byte> {
    if chunks == [] then [] else Stream(chunks[..|chunks| - 1]) + chunks[|chunks| - 1]
  }

  lemma TrimmedAccounts(h: Held, caps: Caps, stream: seq<Byte>)
    requires Accounts(h, stream)
    ensures Accounts(Trimmed(h, caps), stream)
    ensures |Trimmed(h, caps).buf| <= caps.maxBytes && Trimmed(h, caps).lines <= caps.maxLines
  {
    TrimIsLegal(h.buf, caps);
    NewlinesCut(h.buf, TrimCut(h.buf, caps));
  }

  lemma PushedAccounts(h: Held, caps: Caps, stream: seq<Byte>, chunk: seq<Byte>)
    requires Accounts(h, stream)
    ensures Accounts(Pushed(h, caps, chunk), stream + chunk)
    ensures !Overshoots(Pushed(h, caps, chunk), caps)
  {
    NewlinesSplit(h.buf, chunk);
    NewlinesSplit(stream, chunk);
    var full := h.(buf := h.buf + chunk, lines := h.lines + Newlines(chunk));
    assert Accounts(full, stream + chunk);
    if Overshoots(full, caps) { TrimmedAccounts(full, caps, stream + chunk); }
  }

  /** Every chunking of every stream: the running buffer stays within cap plus slack, and sealing it
      yields a suffix of the stream within both caps with exact byte and line accounting. */
  lemma {:induction false} EveryStreamIsAccounted(caps: Caps, chunks: seq<seq<Byte>>)
    ensures Accounts(PushedAll(caps, chunks), Stream(chunks))
    ensures !Overshoots(PushedAll(caps, chunks), caps)
    ensures var sealed := Trimmed(PushedAll(caps, chunks), caps);
      && Accounts(sealed, Stream(chunks))
      && |sealed.buf| <= caps.maxBytes && Newlines(sealed.buf) <= caps.maxLines
  {
    if chunks != [] {
      var front := chunks[..|chunks| - 1];
      EveryStreamIsAccounted(caps, front);
      PushedAccounts(PushedAll(caps, front), caps, Stream(front), chunks[|chunks| - 1]);
    }
    TrimmedAccounts(PushedAll(caps, chunks), caps, Stream(chunks));
  }

  /** How far past its caps the buffer may run before it is cut. */
  predicate WithinSlack(caps: Caps, stream: seq<Byte>) {
    && |stream| <= caps.maxBytes + (if caps.maxBytes >= 8 * 65536 then caps.maxBytes / 8 else 65536)
    && Newlines(stream) <= caps.maxLines + (if caps.maxLines >= 8 * 1024 then caps.maxLines / 8 else 1024)
  }

  lemma FrontWithinSlack(caps: Caps, chunks: seq<seq<Byte>>)
    requires chunks != [] && WithinSlack(caps, Stream(chunks))
    ensures WithinSlack(caps, Stream(chunks[..|chunks| - 1]))
  {
    NewlinesSplit(Stream(chunks[..|chunks| - 1]), chunks[|chunks| - 1]);
  }

  /** Nothing is dropped while the stream is within the caps and the slack, and nothing is sealed away of one
      within the caps, however it was chunked. */
  lemma {:induction false} NothingDroppedEarly(caps: Caps, chunks: seq<seq<Byte>>)
    requires WithinSlack(caps, Stream(chunks))
    ensures PushedAll(caps, chunks) == Held(Stream(chunks), Newlines(Stream(chunks)), 0, 0)
    ensures |Stream(chunks)| <= caps.maxBytes && Newlines(Stream(chunks)) <= caps.maxLines ==>
      Trimmed(PushedAll(caps, chunks), caps) == Held(Stream(chunks), Newlines(Stream(chunks)), 0, 0)
  {
    if chunks != [] {
      FrontWithinSlack(caps, chunks);
      NothingDroppedEarly(caps, chunks[..|chunks| - 1]);
      NewlinesSplit(Stream(chunks[..|chunks| - 1]), chunks[|chunks| - 1]);
    }
    assert Stream(chunks)[0..] == Stream(chunks) && Stream(chunks)[..0] == [];
  }

  /** And the running buffer is never past them. */
  lemma StaysWithinSlack(caps: Caps, chunks: seq<seq<Byte>>)
    ensures WithinSlack(caps, PushedAll(caps, chunks).buf)
  {
    EveryStreamIsAccounted(caps, chunks);
  }

  // ---- The object ----

  class OutputCapture {
    const caps: Caps
    var buf: seq<Byte>
    var lines: nat
    var droppedBytes: nat
    var droppedLines: nat

    ghost predicate Valid() reads this { lines == Newlines(buf) }

    function State(): Held reads this { Held(buf, lines, droppedBytes, droppedLines) }

    constructor (caps: Caps)
      ensures this.caps == caps && State() == EMPTY && Valid()
    {
      this.caps := caps;
      buf, lines, droppedBytes, droppedLines := [], 0, 0, 0;
    }

    method Push(chunk: seq<Byte>)
      requires Valid()
      modifies this
      ensures Valid() && State() == Pushed(old(State()), caps, chunk)
    {
      NewlinesSplit(buf, chunk);
      buf := buf + chunk;
      var arrived := CountNewlines(chunk);
      lines := lines + arrived;
      if |buf| > caps.maxBytes + caps.ByteSlack() || lines > caps.maxLines + caps.LineSlack() {
        Trim();
      }
    }

    method Trim()
      requires Valid()
      modifies this
      ensures Valid() && State() == Trimmed(old(State()), caps)
    {
      var cut := CutPoint(buf, caps);
      NewlinesCut(buf, cut);
      if cut == 0 {
        assert buf[..0] == [] && buf[0..] == buf;
        return;
      }
      var dropped := CountNewlines(buf[..cut]);
      droppedBytes := droppedBytes + cut;
      droppedLines := droppedLines + dropped;
      lines := lines - dropped;
      buf := buf[cut..];
    }

    method Finish() returns (sealed: Held)
      requires Valid()
      modifies this
      ensures Valid() && sealed == State() == Trimmed(old(State()), caps)
    {
      Trim();
      sealed := State();
    }
  }

  method CutPoint(buf: seq<Byte>, caps: Caps) returns (cut: nat)
    ensures cut == TrimCut(buf, caps)
  {
    cut := 0;
    if |buf| > caps.maxBytes {
      cut := |buf| - caps.maxBytes;
      var past := PastNewline(buf[cut..], 1);
      cut := if past == 0 then |buf| else cut + past;
    }
    assert cut == ByteCut(buf, caps);
    var linesAfter := CountNewlines(buf[cut..]);
    if linesAfter > caps.maxLines {
      var past := PastNewline(buf[cut..], linesAfter - caps.maxLines);
      cut := cut + past;
    }
  }

  method CountNewlines(b: seq<Byte>) returns (n: nat)
    ensures n == Newlines(b)
  {
    n := 0;
    for i := 0 to |b|
      invariant n == Newlines(b[..i])
    {
      NewlinesSplit(b[..i], [b[i]]);
      assert b[..i] + [b[i]] == b[..i + 1];
      if b[i] == NEWLINE { n := n + 1; }
    }
    assert b[..|b|] == b;
  }

  /** Index just past the `n`th newline, or 0 when `b` has fewer. */
  method PastNewline(b: seq<Byte>, n: nat) returns (r: nat)
    requires n > 0
    ensures if n <= Newlines(b) then r == ThroughNewline(b, n) else r == 0
  {
    var excess := n;
    for i := 0 to |b|
      invariant 0 < excess <= n
      invariant Newlines(b[..i]) == n - excess
    {
      NewlinesSplit(b[..i], [b[i]]);
      assert b[..i] + [b[i]] == b[..i + 1];
      NewlinesCut(b, i + 1);
      if b[i] == NEWLINE {
        excess := excess - 1;
        if excess == 0 {
          var t := ThroughNewline(b, n);
          if t <= i { NewlinesMonotone(b, t, i); }
          return i + 1;
        }
      }
    }
    assert b[..|b|] == b;
    return 0;
  }
}
