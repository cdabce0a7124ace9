/** The metrics endpoint's request reader: the read loop and the 200 / 404 decision of
    `handle_request` in `src/metrics.rs`. */
module RequestLine {
  import opened Machine

  const HEAD_SIZE := 1024
  const LF := 10
  const CR := 13
  const REPLACEMENT := 0xFFFD

  /** A decoded string, as code points. */
  type Text = seq<nat>

  // ── String::from_utf8_lossy ───────────────────────────────────────────────

  function At(s: Bytes, i: nat): byte {
    if i < |s| then s[i] else 0
  }

  predicate Continues(b: byte) {
    0x80 <= b < 0xC0
  }

  /** May `second` follow the lead byte of a three- or four-byte sequence? */
  predicate SecondOk(lead: byte, second: byte) {
    if lead == 0xE0 then 0xA0 <= second < 0xC0
    else if lead == 0xED then 0x80 <= second < 0xA0
    else if lead == 0xF0 then 0x90 <= second < 0xC0
    else if lead == 0xF4 then 0x80 <= second < 0x90
    else Continues(second)
  }

  /** The first code point and the bytes it takes; an ill-formed sequence takes its longest
      well-formed start and becomes one replacement character. */
  function First(s: Bytes): (r: (nat, nat))
    requires s != []
    ensures 1 <= r.1 <= |s|
    ensures s[0] < 0x80 ==> r == (s[0], 1)
    ensures s[0] >= 0x80 ==> r.0 >= 0x80
  {
    var b, c1, c2, c3 := s[0] as int, At(s, 1) as int, At(s, 2) as int, At(s, 3) as int;
    if b < 0x80 then (b, 1)
    else if 0xC2 <= b < 0xE0 then
      if Continues(c1) then ((b - 0xC0) * 64 + (c1 - 0x80), 2) else (REPLACEMENT, 1)
    else if 0xE0 <= b < 0xF0 then
      if !SecondOk(b, c1) then (REPLACEMENT, 1)
      else if !Continues(c2) then (REPLACEMENT, 2)
      else ((b - 0xE0) * 4096 + (c1 - 0x80) * 64 + (c2 - 0x80), 3)
    else if 0xF0 <= b < 0xF5 then
      if !SecondOk(b, c1) then (REPLACEMENT, 1)
      else if !Continues(c2) then (REPLACEMENT, 2)
      else if !Continues(c3) then (REPLACEMENT, 3)
      else ((b - 0xF0) * 262144 + (c1 - 0x80) * 4096 + (c2 - 0x80) * 64 + (c3 - 0x80), 4)
    else (REPLACEMENT, 1)
  }

  function Lossy(s: Bytes): Text {
    if s == [] then [] else var (c, width) := First(s); [c] + Lossy(s[width..])
  }

  /** A Unicode scalar value. */
  predicate Scalar(c: nat) {
    c < 0xD800 || 0xE000 <= c < 0x11_0000
  }

  /** UTF-8 as section 3 of RFC 3629 defines it. */
  function Utf8(c: nat): Bytes
    requires Scalar(c)
  {
    if c < 0x80 then [c]
    else if c < 0x800 then [0xC0 + c / 64, 0x80 + c % 64]
    else if c < 0x1_0000 then [0xE0 + c / 4096, 0x80 + c / 64 % 64, 0x80 + c % 64]
    else [0xF0 + c / 262144, 0x80 + c / 4096 % 64, 0x80 + c / 64 % 64, 0x80 + c % 64]
  }

  /** Well-formed text is decoded as it was meant, whatever follows it. */
  lemma LossyDecodes(c: nat, rest: Bytes)
    requires Scalar(c)
    ensures Lossy(Utf8(c) + rest) == [c] + Lossy(rest)
  {
    var s := Utf8(c) + rest;
    FirstDecodes(c, rest);
    assert s[|Utf8(c)|..] == rest;
  }

  lemma FirstDecodes(c: nat, rest: Bytes)
    requires Scalar(c)
    ensures First(Utf8(c) + rest) == (c, |Utf8(c)|)
  {
    if 0x800 <= c < 0x1_0000 {
      assert c == c / 4096 * 4096 + c / 64 % 64 * 64 + c % 64;
    } else if 0x1_0000 <= c {
      assert c == c / 262144 * 262144 + c / 4096 % 64 * 4096 + c / 64 % 64 * 64 + c % 64;
    }
  }

  /** A line feed is never swallowed by a damaged multi-byte sequence in front of it. */
  lemma {:induction false} LossySplitsAtLineFeed(a: Bytes, b: Bytes)
    ensures Lossy(a + [LF] + b) == Lossy(a) + [LF] + Lossy(b)
  {
    var s := a + [LF] + b;
    if a == [] {
      assert s[1..] == b;
    } else {
      var width := First(a).1;
      FirstStopsAtLineFeed(a, b);
      assert s[width..] == a[width..] + [LF] + b;
      LossySplitsAtLineFeed(a[width..], b);
    }
  }

  lemma FirstStopsAtLineFeed(a: Bytes, b: Bytes)
    requires a != []
    ensures First(a + [LF] + b) == First(a)
  {
    var s := a + [LF] + b;
    assert s[|a|] == LF;
    assert forall i :: 0 <= i < |a| ==> s[i] == a[i];
  }

  lemma {:induction false} LossyKeepsLinesApart(a: Bytes)
    requires LF !in a
    ensures LF !in Lossy(a)
  {
    if a != [] {
      LossyKeepsLinesApart(a[First(a).1..]);
    }
  }

  // ── Classification ────────────────────────────────────────────────────────

  /** `lines().next()`, or the empty string. */
  function FirstLine(text: Text): Text {
    StripCr(UpToLf(text), LF in text)
  }

  function UpToLf(text: Text): Text {
    if text == [] || text[0] == LF then [] else [text[0]] + UpToLf(text[1..])
  }

  function StripCr(line: Text, terminated: bool): Text {
    if terminated && line != [] && line[|line| - 1] == CR then line[..|line| - 1] else line
  }

  /** Unicode White_Space. */
  predicate IsSpace(c: nat) {
    || 9 <= c <= 13 || c == 0x20 || c == 0x85 || c == 0xA0 || c == 0x1680 || 0x2000 <= c <= 0x200A
    || c == 0x2028 || c == 0x2029 || c == 0x202F || c == 0x205F || c == 0x3000
  }

  /** The 25 code points, one by one. */
  lemma SpacesAre(c: nat)
    ensures IsSpace(c) <==>
            c in [9, 10, 11, 12, 13, 32, 133, 160, 5760, 8192, 8193, 8194, 8195, 8196, 8197, 8198, 8199, 8200, 8201,
                  8202, 8232, 8233, 8239, 8287, 12288]
  {}

  function SkipSpaces(s: Text): Text {
    if s != [] && IsSpace(s[0]) then SkipSpaces(s[1..]) else s
  }

  function Word(s: Text): Text {
    if s == [] || IsSpace(s[0]) then [] else [s[0]] + Word(s[1..])
  }

  function DropWord(s: Text): Text {
    if s == [] || IsSpace(s[0]) then s else DropWord(s[1..])
  }

  const GET: Text := [71, 69, 84]
  const METRICS: Text := [47, 109, 101, 116, 114, 105, 99, 115]
  const QUERY: nat := 63

  predicate IsMetrics(line: Text) {
    var start := SkipSpaces(line);
    var path := Word(SkipSpaces(DropWord(start)));
    Word(start) == GET && (path == METRICS || METRICS + [QUERY] <= path)
  }

  /** The answer a client deserves: a function of the first 1024 bytes it ever sends. */
  predicate Deserves200(stream: Bytes) {
    IsMetrics(FirstLine(Lossy(stream[..Min(|stream|, HEAD_SIZE)])))
  }

  /** What the loop may stop with: a head holding a whole line, or one that cannot grow. */
  predicate Enough(stream: Bytes, n: nat)
    requires n <= |stream|
  {
    LF in stream[..n] || n == Min(|stream|, HEAD_SIZE)
  }

  /** Any sufficient head gives the same first line as the longest one. */
  lemma HeadDecides(stream: Bytes, n: nat)
    requires n <= Min(|stream|, HEAD_SIZE) && Enough(stream, n)
    ensures FirstLine(Lossy(stream[..n])) == FirstLine(Lossy(stream[..Min(|stream|, HEAD_SIZE)]))
  {
    var full := stream[..Min(|stream|, HEAD_SIZE)];
    var head := stream[..n];
    if n < |full| {
      var k := FirstLf(head);
      assert head == head[..k] + [LF] + head[k + 1..];
      assert full == head[..k] + [LF] + full[k + 1..];
      LineOf(head[..k], head[k + 1..]);
      LineOf(head[..k], full[k + 1..]);
    }
  }

  lemma {:induction false} FirstLf(s: Bytes) returns (k: nat)
    requires LF in s
    ensures k < |s| && s[k] == LF && LF !in s[..k]
  {
    if s[0] == LF {
      k := 0;
    } else {
      k := FirstLf(s[1..]);
      k := k + 1;
      assert s[..k] == [s[0]] + s[1..][..k - 1];
    }
  }

  lemma LineOf(a: Bytes, b: Bytes)
    requires LF !in a
    ensures FirstLine(Lossy(a + [LF] + b)) == StripCr(Lossy(a), true)
  {
    LossySplitsAtLineFeed(a, b);
    LossyKeepsLinesApart(a);
    UpToLfStops(Lossy(a), Lossy(b));
  }

  lemma {:induction false} UpToLfStops(x: Text, y: Text)
    requires LF !in x
    ensures UpToLf(x + [LF] + y) == x
  {
    if x != [] {
      assert (x + [LF] + y)[1..] == x[1..] + [LF] + y;
      UpToLfStops(x[1..], y);
    }
  }

  // ── The decision, spelled out ─────────────────────────────────────────────

  ghost predicate AllSpace(s: Text) {
    forall i :: 0 <= i < |s| ==> IsSpace(s[i])
  }

  ghost predicate NoSpace(s: Text) {
    forall i :: 0 <= i < |s| ==> !IsSpace(s[i])
  }

  lemma {:induction false} SkipLeading(a: Text, rest: Text)
    requires AllSpace(a) && (rest == [] || !IsSpace(rest[0]))
    ensures SkipSpaces(a + rest) == rest
  {
    if a == [] {
      assert a + rest == rest;
    } else {
      assert (a + rest)[1..] == a[1..] + rest;
      SkipLeading(a[1..], rest);
    }
  }

  lemma {:induction false} WordEnds(w: Text, rest: Text)
    requires NoSpace(w) && (rest == [] || IsSpace(rest[0]))
    ensures Word(w + rest) == w && DropWord(w + rest) == rest
  {
    if w == [] {
      assert w + rest == rest;
    } else {
      assert (w + rest)[1..] == w[1..] + rest;
      WordEnds(w[1..], rest);
    }
  }

  lemma {:induction false} Leading(s: Text) returns (a: Text)
    ensures s == a + SkipSpaces(s) && AllSpace(a) && (SkipSpaces(s) == [] || !IsSpace(SkipSpaces(s)[0]))
  {
    if s != [] && IsSpace(s[0]) {
      a := Leading(s[1..]);
      a := [s[0]] + a;
    } else {
      a := [];
    }
  }

  lemma {:induction false} Splits(s: Text)
    ensures s == Word(s) + DropWord(s) && NoSpace(Word(s)) && (DropWord(s) == [] || IsSpace(DropWord(s)[0]))
  {
    if s != [] && !IsSpace(s[0]) {
      Splits(s[1..]);
    }
  }

  /** The path of a metrics request: "/metrics", or that and a query. */
  predicate MetricsPath(w: Text) {
    || w == [47, 109, 101, 116, 114, 105, 99, 115]
    || (|w| >= 9 && w[..9] == [47, 109, 101, 116, 114, 105, 99, 115, 63])
  }

  /** `line` is white space, "GET", white space, a metrics path, and the end or more after
      white space. */
  ghost predicate AsksForMetrics(line: Text) {
    exists a: Text, b: Text, w: Text, c: Text :: Asks(line, a, b, w, c)
  }

  ghost predicate Asks(line: Text, a: Text, b: Text, w: Text, c: Text) {
    && line == a + [71, 69, 84] + b + w + c
    && AllSpace(a) && AllSpace(b) && b != [] && NoSpace(w) && MetricsPath(w) && (c == [] || IsSpace(c[0]))
  }

  lemma IsMetricsMeans(line: Text)
    ensures IsMetrics(line) <==> AsksForMetrics(line)
  {
    if IsMetrics(line) {
      MetricsParses(line);
    }
    if AsksForMetrics(line) {
      var a: Text, b: Text, w: Text, c: Text :| Asks(line, a, b, w, c);
      ParsedIsMetrics(line, a, b, w, c);
    }
  }

  lemma ParsedIsMetrics(line: Text, a: Text, b: Text, w: Text, c: Text)
    requires Asks(line, a, b, w, c)
    ensures IsMetrics(line)
  {
    var get := [71, 69, 84];
    var tail := b + (w + c);
    assert line == a + (get + tail);
    SkipLeading(a, get + tail);
    WordEnds(get, tail);
    SkipLeading(b, w + c);
    WordEnds(w, c);
    assert METRICS + [QUERY] == [47, 109, 101, 116, 114, 105, 99, 115, 63];
  }

  lemma MetricsParses(line: Text)
    requires IsMetrics(line)
    ensures AsksForMetrics(line)
  {
    var a := Leading(line);
    var start := SkipSpaces(line);
    Splits(start);
    var b := Leading(DropWord(start));
    var end := SkipSpaces(DropWord(start));
    Splits(end);
    var w, c := Word(end), DropWord(end);
    assert MetricsPath(w) by {
      assert METRICS + [QUERY] == [47, 109, 101, 116, 114, 105, 99, 115, 63];
    }
    Regroup(a, [71, 69, 84], b, w, c);
    assert b != [] by {
      assert w != [];
    }
    assert Asks(line, a, b, w, c);
  }

  lemma Regroup<T>(a: seq<T>, g: seq<T>, b: seq<T>, w: seq<T>, c: seq<T>)
    ensures a + (g + (b + (w + c))) == a + g + b + w + c
  {}

  /** The same of the bytes of a line: white space up to `i`, "GET", white space up to `k`, and
      from there to `m`, where the line ends or white space follows, a path without white space
      that is "/metrics" or starts with "/metrics?". */
  predicate RequestAt(line: Bytes, i: nat, k: nat, m: nat) {
    && i + 3 < k <= m <= |line|
    && (forall x :: 0 <= x < i ==> White(line[x]))
    && line[i] == 71 && line[i + 1] == 69 && line[i + 2] == 84
    && (forall x :: i + 3 <= x < k ==> White(line[x]))
    && (forall x :: k <= x < m ==> !White(line[x]))
    && (m == |line| || White(line[m]))
    && (line[k..m] == [47, 109, 101, 116, 114, 105, 99, 115]
        || (m - k >= 9 && line[k..k + 9] == [47, 109, 101, 116, 114, 105, 99, 115, 63]))
  }

  /** Blank, tab and the other ASCII white space. */
  predicate White(b: byte) {
    b == 32 || 9 <= b <= 13
  }

  ghost predicate MetricsLine(line: Bytes) {
    exists i: nat, k: nat, m: nat :: RequestAt(line, i, k, m)
  }

  predicate Ascii(s: Bytes) {
    forall i :: 0 <= i < |s| ==> s[i] < 0x80
  }

  lemma {:induction false} LossyAscii(s: Bytes)
    requires Ascii(s)
    ensures Lossy(s) == s
  {
    if s != [] {
      LossyAscii(s[1..]);
      assert s == [s[0]] + s[1..];
    }
  }

  lemma BytesMean(line: Bytes)
    requires Ascii(line)
    ensures MetricsLine(line) <==> AsksForMetrics(line)
  {
    if MetricsLine(line) {
      var i: nat, k: nat, m: nat :| RequestAt(line, i, k, m);
      RequestAsks(line, i, k, m);
    }
    if AsksForMetrics(line) {
      var a: Text, b: Text, w: Text, c: Text :| Asks(line, a, b, w, c);
      AskedAt(line, a, b, w, c);
    }
  }

  lemma RequestAsks(line: Bytes, i: nat, k: nat, m: nat)
    requires Ascii(line) && RequestAt(line, i, k, m)
    ensures AsksForMetrics(line)
  {
    var a: Text, b: Text, w: Text, c: Text := line[..i], line[i + 3..k], line[k..m], line[m..];
    assert line[i..i + 3] == [71, 69, 84];
    Cut(line, i, k, m);
    assert MetricsPath(w) by {
      assert m - k >= 9 ==> w[..9] == line[k..k + 9];
    }
    assert AllSpace(a) && AllSpace(b) && NoSpace(w);
    assert Asks(line, a, b, w, c);
  }

  lemma Cut<T>(s: seq<T>, i: nat, k: nat, m: nat)
    requires i + 3 <= k <= m <= |s|
    ensures s == s[..i] + s[i..i + 3] + s[i + 3..k] + s[k..m] + s[m..]
  {}

  lemma AskedAt(line: Bytes, a: Text, b: Text, w: Text, c: Text)
    requires Ascii(line) && Asks(line, a, b, w, c)
    ensures MetricsLine(line)
  {
    var i, k, m := |a|, |a| + 3 + |b|, |a| + 3 + |b| + |w|;
    Parts(line, a, [71, 69, 84], b, w, c);
    assert line[k..m] == w;
    assert |w| >= 9 ==> line[k..k + 9] == w[..9];
    assert RequestAt(line, i, k, m);
  }

  lemma Parts<T>(s: seq<T>, a: seq<T>, g: seq<T>, b: seq<T>, w: seq<T>, c: seq<T>)
    requires s == a + g + b + w + c
    ensures var i, j := |a|, |a| + |g|;
            var k, m := j + |b|, j + |b| + |w|;
            && (forall x :: 0 <= x < i ==> s[x] == a[x]) && (forall x :: i <= x < j ==> s[x] == g[x - i])
            && (forall x :: j <= x < k ==> s[x] == b[x - j]) && (forall x :: k <= x < m ==> s[x] == w[x - k])
            && (m < |s| ==> s[m] == c[0]) && |s| == m + |c|
  {}

  /** One carriage return at the end of a terminated line does not belong to it. */
  function DropCr(line: Bytes): Bytes {
    if line != [] && line[|line| - 1] == 13 then line[..|line| - 1] else line
  }

  /** The answer from the bytes, both ways: for a client whose first 1024 bytes hold an ASCII
      first line, 200 is deserved exactly if that line asks for "/metrics". */
  lemma AnswerFromBytes(stream: Bytes, line: Bytes, rest: Bytes)
    requires Ascii(line) && 10 !in line
    requires stream[..Min(|stream|, 1024)] == line + [10] + rest
    ensures Deserves200(stream) <==> MetricsLine(DropCr(line))
  {
    LineOf(line, rest);
    LossyAscii(line);
    IsMetricsMeans(DropCr(line));
    BytesMean(DropCr(line));
  }

  /** The same if no line feed comes, because the client stops or the buffer is full. */
  lemma AnswerWithoutLineFeed(stream: Bytes)
    requires var head := stream[..Min(|stream|, 1024)]; Ascii(head) && 10 !in head
    ensures Deserves200(stream) <==> MetricsLine(stream[..Min(|stream|, 1024)])
  {
    var head := stream[..Min(|stream|, 1024)];
    LossyAscii(head);
    UnendedLine(head);
    IsMetricsMeans(head);
    BytesMean(head);
  }

  lemma {:induction false} UnendedLine(s: Text)
    requires LF !in s
    ensures UpToLf(s) == s && FirstLine(s) == s
  {
    if s != [] {
      UnendedLine(s[1..]);
    }
  }

  // ── The loop ──────────────────────────────────────────────────────────────

  /** A client's bytes, delivered in pieces of the network's choosing. */
  class Client {
    const stream: Bytes
    var pos: nat

    constructor (stream: Bytes)
      ensures this.stream == stream && pos == 0
    {
      this.stream := stream;
      pos := 0;
    }

    /** One `read` into the free part of the buffer: an error, the end, or some bytes. */
    method Read(buf: array<byte>, from: nat) returns (got: Option<nat>)
      requires pos <= |stream| && from <= buf.Length
      modifies this`pos, buf
      ensures got.None? ==> pos == old(pos) && buf[..] == old(buf[..])
      ensures got.Some? ==>
                && pos == old(pos) + got.value <= |stream| && from + got.value <= buf.Length
                && (got.value == 0 <==> old(pos) == |stream| || from == buf.Length)
                && buf[..from] == old(buf[..from])
                && buf[from..from + got.value] == stream[old(pos)..pos]
    {
      var failed: bool := *;
      if failed {
        return None;
      }
      var most := Min(|stream| - pos, buf.Length - from);
      var k: nat := 0;
      if most > 0 {
        k :| 1 <= k <= most;
      }
      forall i | 0 <= i < k {
        buf[from + i] := stream[pos + i];
      }
      pos := pos + k;
      return Some(k);
    }
  }

  /** Reads until the request line is complete and answers whether it is `GET /metrics`.
      However the reads split the stream, an answer is the one the stream deserves. */
  method HandleRequest(client: Client) returns (ok: Option<bool>)
    requires client.pos == 0
    modifies client
    ensures ok.Some? ==> ok.value == Deserves200(client.stream)
  {
    var buf := new byte[HEAD_SIZE](_ => 0);
    var n: nat := 0;
    while true
      invariant n == client.pos <= Min(|client.stream|, HEAD_SIZE)
      invariant buf[..n] == client.stream[..n]
      decreases HEAD_SIZE - n
    {
      var read := client.Read(buf, n);
      if read.None? {
        return None;
      }
      n := n + read.value;
      assert buf[..n] == client.stream[..n];
      if read.value == 0 || LF in buf[..n] || n == buf.Length {
        break;
      }
    }
    HeadDecides(client.stream, n);
    return Some(IsMetrics(FirstLine(Lossy(buf[..n]))));
  }
}
