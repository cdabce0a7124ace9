/** One direction of a TCP relay: `copy_dir` in `src/proxy/tcp.rs`.

    `Task` is the direction's state between two atomic actions; `Able` and `Act` say when an
    action is possible and what it does. Every read, write, flag test and channel operation is
    an action of its own, so another task may run between any two of them. `source` is
    everything the peer would ever send before closing. */
module Copy {
  import opened Machine

  const BUF_SIZE := 16384

  /** How the loop ended, as reported to the watchdog. */
  datatype End = Eof | Err

  datatype Pc =
    | ReadCheck                          // outer select: is the token set?
    | ReadPoll                           // it was not: poll the reader
    | Stamp(chunk: Bytes)                // Ok(n): about to store last_activity
    | WriteCheck(chunk: Bytes, off: nat) // inner select: is the token set?
    | WritePoll(chunk: Bytes, off: nat)  // it was not: poll write_all, `off` bytes handed over
    | CloseWriter                        // writer.shutdown()
    | Report                             // done.send(..)
    | Finish                             // the function's locals are dropped
    | Done

  datatype Task = Task(
    pc: Pc,
    read: Bytes,      // taken from the reader
    written: Bytes,   // taken by the writer
    total: nat,       // the return value
    counter: nat,     // added to the Prometheus byte counter
    end: End,
    sawEof: bool,     // the reader returned Ok(0)
    shut: bool)       // the writer was shut down

  datatype Action =
    | SeeCancel | PassCancel
    | ReadPending | ReadSome(n: nat) | ReadEof | ReadErr
    | StoreStamp
    | WritePending | WriteSome(k: nat) | WriteErr
    | Closed | Sent | Dropped

  const START := Task(ReadCheck, [], [], 0, 0, Eof, false, false)

  /** The direction is at the action and the reader or writer can answer so. */
  predicate Ready(t: Task, e: Action, source: Bytes) {
    match e
    case SeeCancel | PassCancel => t.pc.ReadCheck? || t.pc.WriteCheck?
    case ReadPending => t.pc.ReadPoll?
    case ReadSome(n) => t.pc.ReadPoll? && 1 <= n <= BUF_SIZE && |t.read| + n <= |source|
    case ReadEof => t.pc.ReadPoll? && |t.read| == |source|
    case ReadErr => t.pc.ReadPoll?
    case StoreStamp => t.pc.Stamp?
    case WritePending => t.pc.WritePoll?
    case WriteSome(k) => t.pc.WritePoll? && 1 <= k && t.pc.off + k <= |t.pc.chunk|
    case WriteErr => t.pc.WritePoll?
    case Closed => t.pc.CloseWriter?
    case Sent => t.pc.Report?
    case Dropped => t.pc.Finish?
  }

  /** The flag test answers what the token says. (The channel send also needs a free place;
      the relay adds that condition.) */
  predicate Able(t: Task, e: Action, source: Bytes, cancel: bool) {
    Ready(t, e, source) && (e.SeeCancel? ==> cancel) && (e.PassCancel? ==> !cancel)
  }

  function Act(t: Task, e: Action, source: Bytes): Task
    requires Ready(t, e, source)
  {
    match e
    case SeeCancel => t.(pc := Report)
    case PassCancel => t.(pc := if t.pc.ReadCheck? then ReadPoll else WritePoll(t.pc.chunk, t.pc.off))
    case ReadPending => t.(pc := ReadCheck)
    case ReadSome(n) =>
      var chunk := source[|t.read|..|t.read| + n];
      t.(pc := Stamp(chunk), read := t.read + chunk)
    case ReadEof => t.(pc := CloseWriter, sawEof := true)
    case ReadErr => t.(pc := CloseWriter, end := Err)
    case StoreStamp => t.(pc := WriteCheck(t.pc.chunk, 0))
    case WritePending => t.(pc := WriteCheck(t.pc.chunk, t.pc.off))
    case WriteSome(k) =>
      var t' := t.(written := t.written + t.pc.chunk[t.pc.off..t.pc.off + k]);
      if t.pc.off + k < |t.pc.chunk| then t'.(pc := WritePoll(t.pc.chunk, t.pc.off + k))
      else t'.(pc := ReadCheck, total := t.total + |t.pc.chunk|, counter := t.counter + |t.pc.chunk|)
    case WriteErr => t.(pc := Report, end := Err)
    case Closed => t.(pc := Report, shut := true)
    case Sent => t.(pc := Finish)
    case Dropped => t.(pc := Done)
  }

  /** The completion message has been sent (or found no receiver). */
  predicate Reported(t: Task) {
    t.pc.Finish? || t.pc.Done?
  }

  predicate Over(t: Task) {
    t.pc.Report? || Reported(t)
  }

  /** What holds of a direction between any two actions. `cancel` says whether the token has
      been set by now; only a set token can end the loop with `Eof` before end-of-stream. */
  ghost predicate TaskInv(t: Task, source: Bytes, cancel: bool) {
    && t.read <= source && t.written <= t.read
    && t.counter == t.total <= |t.written| && |t.read| <= t.total + BUF_SIZE
    && (t.sawEof ==>
          t.written == t.read == source && t.total == |source| && t.end == Eof && (t.pc.CloseWriter? || Over(t)))
    && (t.shut ==> Over(t) && (t.sawEof || t.end == Err))
    && (Over(t) && t.sawEof ==> t.shut)
    && (Over(t) && t.end == Eof && !t.sawEof ==> cancel)
    && match t.pc
       case ReadCheck | ReadPoll => t.written == t.read && t.total == |t.read| && t.end == Eof
       case Stamp(chunk) =>
         t.read == t.written + chunk && t.total == |t.written| && 1 <= |chunk| <= BUF_SIZE && t.end == Eof
       case WriteCheck(chunk, off) =>
         Handing(t, chunk, off)
       case WritePoll(chunk, off) =>
         Handing(t, chunk, off)
       case CloseWriter => t.written == t.read && t.total == |t.read| && (t.sawEof || t.end == Err)
       case _ => true
  }

  ghost predicate Handing(t: Task, chunk: Bytes, off: nat) {
    && off < |chunk| <= BUF_SIZE && t.end == Eof
    && t.read == t.written + chunk[off..] && t.total + off == |t.written|
  }

  lemma InvStart(source: Bytes, cancel: bool)
    ensures TaskInv(START, source, cancel)
  {}

  lemma InvStep(t: Task, e: Action, source: Bytes, cancel: bool)
    requires TaskInv(t, source, cancel) && Ready(t, e, source) && (e.SeeCancel? ==> cancel)
    ensures TaskInv(Act(t, e, source), source, cancel)
  {
    match e {
      case ReadSome(n) => assert Act(t, e, source).read == source[..|t.read| + n];
      case WriteSome(k) => InvWriteSome(t, k, source, cancel);
      case _ =>
    }
  }

  lemma InvWriteSome(t: Task, k: nat, source: Bytes, cancel: bool)
    requires TaskInv(t, source, cancel) && Ready(t, WriteSome(k), source)
    ensures TaskInv(Act(t, WriteSome(k), source), source, cancel)
  {
    var chunk, off := t.pc.chunk, t.pc.off;
    assert chunk[off..] == chunk[off..off + k] + chunk[off + k..];
    assert t.read == (t.written + chunk[off..off + k]) + chunk[off + k..];
  }

  /** Only `WriteSome` hands bytes to the writer. */
  lemma WrittenGrows(t: Task, e: Action, source: Bytes)
    requires Ready(t, e, source)
    ensures Act(t, e, source).written ==
            t.written + if e.WriteSome? then t.pc.chunk[t.pc.off..t.pc.off + e.k] else []
  {}

  /** Setting the token keeps the invariant. */
  lemma InvCancel(t: Task, source: Bytes, cancel: bool)
    requires TaskInv(t, source, cancel)
    ensures TaskInv(t, source, true)
  {}

  // ── Stopping ──────────────────────────────────────────────────────────────

  /** Bounds the actions a direction can still take once the token is set or its loop is over. */
  function Rank(t: Task): nat {
    match t.pc
    case Done => 0
    case Finish => 1
    case Report => 2
    case CloseWriter | ReadCheck | WriteCheck(_, _) => 3
    case Stamp(_) => 4
    case ReadPoll => 5
    case WritePoll(chunk, off) => if off < |chunk| then 4 + |chunk| - off else 4
  }

  /** Is the direction bound to end by itself? */
  predicate Ending(t: Task, cancel: bool) {
    cancel || Over(t)
  }

  lemma RankDrops(t: Task, e: Action, source: Bytes, cancel: bool)
    requires TaskInv(t, source, cancel) && Ending(t, cancel) && Able(t, e, source, cancel)
    ensures Rank(Act(t, e, source)) < Rank(t)
    ensures Ending(Act(t, e, source), cancel)
  {}

  /** An ending direction that is not done always has an action of its own to take, whatever
      the network does: it never waits for the peer again. */
  function OwnAction(t: Task, cancel: bool): Action
    requires !t.pc.Done?
  {
    match t.pc
    case ReadCheck | WriteCheck(_, _) => if cancel then SeeCancel else PassCancel
    case ReadPoll => ReadPending
    case Stamp(_) => StoreStamp
    case WritePoll(_, _) => WritePending
    case CloseWriter => Closed
    case Report => Sent
    case Finish => Dropped
  }

  lemma OwnActionIsPossible(t: Task, source: Bytes, cancel: bool)
    requires !t.pc.Done?
    ensures Able(t, OwnAction(t, cancel), source, cancel)
  {}

  // ── The loop ──────────────────────────────────────────────────────────────

  /** What became of one `write_all`: it took all the bytes, or the token or an error cut it
      short after the sizes handed over so far. */
  datatype Fate = Complete | Cut | Failed

  /** What the environment does to one pass of the outer loop. */
  datatype Pass =
    | CancelSeen
    | EndOfStream
    | ReadFailed
    | Chunk(n: nat, sizes: seq<nat>, fate: Fate)

  predicate Breaks(p: Pass) {
    !(p.Chunk? && p.fate == Complete)
  }

  function Sum(sizes: seq<nat>): nat {
    if sizes == [] then 0 else Sum(sizes[..|sizes| - 1]) + sizes[|sizes| - 1]
  }

  /** A reader and a writer can act like this after `r` bytes were read. */
  predicate Possible(p: Pass, r: nat, source: Bytes) {
    match p
    case CancelSeen => true
    case EndOfStream => r == |source|
    case ReadFailed => true
    case Chunk(n, sizes, fate) =>
      && 1 <= n <= BUF_SIZE && r + n <= |source|
      && (forall k <- sizes :: k >= 1)
      && (if fate == Complete then Sum(sizes) == n else Sum(sizes) < n)
  }

  /** From pass `i` on, with `r` bytes read: possible pass after pass, and nothing after one
      that leaves the loop. */
  predicate Feasible(passes: seq<Pass>, i: nat, r: nat, source: Bytes)
    requires i <= |passes|
    decreases |passes| - i
  {
    i < |passes| ==>
      && Possible(passes[i], r, source)
      && (if Breaks(passes[i]) then i + 1 == |passes| else Feasible(passes, i + 1, r + passes[i].n, source))
  }

  function Handed(sizes: seq<nat>): seq<Action> {
    if sizes == [] then [] else Handed(sizes[..|sizes| - 1]) + [WriteSome(sizes[|sizes| - 1])]
  }

  /** The atomic actions of one pass; leaving the loop adds the report. */
  function Actions(p: Pass): seq<Action> {
    match p
    case CancelSeen => [SeeCancel, Sent, Dropped]
    case EndOfStream => [PassCancel, ReadEof, Closed, Sent, Dropped]
    case ReadFailed => [PassCancel, ReadErr, Closed, Sent, Dropped]
    case Chunk(n, sizes, fate) =>
      [PassCancel, ReadSome(n), StoreStamp, PassCancel] + Handed(sizes) + Tail(fate)
  }

  /** The actions of the first `i` passes. */
  function Script(passes: seq<Pass>, i: nat): seq<Action>
    requires i <= |passes|
  {
    if i == 0 then [] else Script(passes, i - 1) + Actions(passes[i - 1])
  }

  /** Where the actions lead, if they are possible. */
  function Exec(t: Task, es: seq<Action>, source: Bytes): Option<Task>
    decreases |es|
  {
    if es == [] then Some(t)
    else if Ready(t, es[0], source) then Exec(Act(t, es[0], source), es[1..], source)
    else None
  }

  lemma {:induction false} ExecJoin(t: Task, xs: seq<Action>, m: Task, ys: seq<Action>, source: Bytes)
    requires Exec(t, xs, source) == Some(m)
    ensures Exec(t, xs + ys, source) == Exec(m, ys, source)
    decreases |xs|
  {
    if xs == [] {
      assert xs + ys == ys;
    } else {
      assert (xs + ys)[1..] == xs[1..] + ys;
      ExecJoin(Act(t, xs[0], source), xs[1..], m, ys, source);
    }
  }

  lemma {:induction false} ExecKeepsInv(t: Task, es: seq<Action>, source: Bytes)
    requires TaskInv(t, source, true) && Exec(t, es, source).Some?
    ensures TaskInv(Exec(t, es, source).value, source, true)
    decreases |es|
  {
    if es != [] {
      InvStep(t, es[0], source, true);
      ExecKeepsInv(Act(t, es[0], source), es[1..], source);
    }
  }

  /** `write_all` over the pieces the writer takes. */
  lemma {:induction false} ExecHanded(t: Task, sizes: seq<nat>, source: Bytes)
    requires t.pc.WritePoll? && t.pc.off == 0 && Sum(sizes) <= |t.pc.chunk| && t.pc.chunk != []
    requires forall k <- sizes :: k >= 1
    ensures Exec(t, Handed(sizes), source) == Some(AfterHanded(t, Sum(sizes)))
  {
    if sizes == [] {
      assert t.written + t.pc.chunk[..0] == t.written;
    } else {
      var front, k := sizes[..|sizes| - 1], sizes[|sizes| - 1];
      assert k in sizes && forall j <- front :: j in sizes;
      ExecHanded(t, front, source);
      var m := AfterHanded(t, Sum(front));
      ExecJoin(t, Handed(front), m, [WriteSome(k)], source);
      var chunk, off := t.pc.chunk, Sum(front);
      assert t.written + chunk[..off + k] == (t.written + chunk[..off]) + chunk[off..off + k];
    }
  }

  function AfterHanded(t: Task, off: nat): Task
    requires t.pc.WritePoll? && off <= |t.pc.chunk|
  {
    var chunk := t.pc.chunk;
    var t' := t.(written := t.written + chunk[..off]);
    if off < |chunk| then t'.(pc := WritePoll(chunk, off))
    else t'.(pc := ReadCheck, total := t.total + |chunk|, counter := t.counter + |chunk|)
  }

  /** One pass of the loop, as the source states it. */
  function AfterPass(t: Task, p: Pass, source: Bytes): Task
    requires |t.read| <= |source| && Possible(p, |t.read|, source)
  {
    match p
    case CancelSeen => t.(pc := Done)
    case EndOfStream => t.(pc := Done, sawEof := true, shut := true)
    case ReadFailed => t.(pc := Done, end := Err, shut := true)
    case Chunk(n, sizes, fate) =>
      var chunk := source[|t.read|..|t.read| + n];
      var t' := t.(read := t.read + chunk, written := t.written + source[|t.read|..|t.read| + Sum(sizes)]);
      match fate
      case Complete => t'.(total := t.total + n, counter := t.counter + n)
      case Failed => t'.(pc := Done, end := Err)
      case Cut => t'.(pc := Done)
  }

  lemma PassLeads(t: Task, p: Pass, source: Bytes)
    requires t.pc == ReadCheck && |t.read| <= |source| && Possible(p, |t.read|, source)
    ensures Exec(t, Actions(p), source) == Some(AfterPass(t, p, source))
  {
    match p {
      case CancelSeen =>
        TwoSteps(Act(t, SeeCancel, source), source);
        assert Actions(p)[1..] == [Sent, Dropped];
      case EndOfStream =>
        var t2 := Act(Act(t, PassCancel, source), ReadEof, source);
        TwoSteps(Act(t2, Closed, source), source);
        ExecJoin(t, [PassCancel, ReadEof], t2, [Closed, Sent, Dropped], source);
        assert [Closed, Sent, Dropped][1..] == [Sent, Dropped];
        assert Actions(p) == [PassCancel, ReadEof] + [Closed, Sent, Dropped];
      case ReadFailed =>
        var t2 := Act(Act(t, PassCancel, source), ReadErr, source);
        TwoSteps(Act(t2, Closed, source), source);
        ExecJoin(t, [PassCancel, ReadErr], t2, [Closed, Sent, Dropped], source);
        assert [Closed, Sent, Dropped][1..] == [Sent, Dropped];
        assert Actions(p) == [PassCancel, ReadErr] + [Closed, Sent, Dropped];
      case Chunk(n, sizes, fate) =>
        ChunkLeads(t, n, sizes, fate, source);
    }
  }

  lemma TwoSteps(t: Task, source: Bytes)
    requires t.pc == Report
    ensures Exec(t, [Sent, Dropped], source) == Some(t.(pc := Done))
  {
    assert Exec(Act(t, Sent, source), [Dropped], source) == Some(t.(pc := Done));
  }

  lemma ChunkLeads(t: Task, n: nat, sizes: seq<nat>, fate: Fate, source: Bytes)
    requires t.pc == ReadCheck && |t.read| <= |source| && Possible(Chunk(n, sizes, fate), |t.read|, source)
    ensures Exec(t, Actions(Chunk(n, sizes, fate)), source) == Some(AfterPass(t, Chunk(n, sizes, fate), source))
  {
    var chunk := source[|t.read|..|t.read| + n];
    var head := [PassCancel, ReadSome(n), StoreStamp, PassCancel];
    var m := t.(pc := WritePoll(chunk, 0), read := t.read + chunk);
    HeadLeads(t, n, source);
    ExecHanded(m, sizes, source);
    var m' := AfterHanded(m, Sum(sizes));
    ExecJoin(t, head, m, Handed(sizes), source);
    var tail := Tail(fate);
    ExecJoin(t, head + Handed(sizes), m', tail, source);
    assert Exec(m', tail, source) == Some(AfterTail(m', fate)) by {
      if fate != Complete {
        TailLeads(m', fate, source);
      }
    }
    ChunkEnds(t, n, sizes, fate, source);
  }

  lemma ChunkEnds(t: Task, n: nat, sizes: seq<nat>, fate: Fate, source: Bytes)
    requires t.pc == ReadCheck && |t.read| <= |source| && Possible(Chunk(n, sizes, fate), |t.read|, source)
    ensures var chunk := source[|t.read|..|t.read| + n];
            var m := t.(pc := WritePoll(chunk, 0), read := t.read + chunk);
            AfterTail(AfterHanded(m, Sum(sizes)), fate) == AfterPass(t, Chunk(n, sizes, fate), source)
  {
  }

  function Tail(fate: Fate): seq<Action> {
    match fate
    case Complete => []
    case Failed => [WriteErr, Sent, Dropped]
    case Cut => [WritePending, SeeCancel, Sent, Dropped]
  }

  function AfterTail(t: Task, fate: Fate): Task {
    match fate
    case Complete => t
    case Failed => t.(pc := Done, end := Err)
    case Cut => t.(pc := Done)
  }

  lemma HeadLeads(t: Task, n: nat, source: Bytes)
    requires t.pc == ReadCheck && 1 <= n <= BUF_SIZE && |t.read| + n <= |source|
    ensures var chunk := source[|t.read|..|t.read| + n];
            Exec(t, [PassCancel, ReadSome(n), StoreStamp, PassCancel], source) ==
            Some(t.(pc := WritePoll(chunk, 0), read := t.read + chunk))
  {
    var t1 := Act(t, PassCancel, source);
    var t2 := Act(t1, ReadSome(n), source);
    var t3 := Act(t2, StoreStamp, source);
    assert Exec(t3, [PassCancel], source) == Some(Act(t3, PassCancel, source));
    assert Exec(t2, [StoreStamp, PassCancel], source) == Exec(t3, [PassCancel], source);
    assert Exec(t1, [ReadSome(n), StoreStamp, PassCancel], source) == Exec(t2, [StoreStamp, PassCancel], source);
  }

  lemma TailLeads(t: Task, fate: Fate, source: Bytes)
    requires t.pc.WritePoll? && fate != Complete
    ensures Exec(t, Tail(fate), source) == Some(AfterTail(t, fate))
  {
    var r := t.(pc := Report, end := if fate == Failed then Err else t.end);
    TwoSteps(r, source);
    if fate == Failed {
      assert Tail(fate)[1..] == [Sent, Dropped];
    } else {
      var w := Act(t, WritePending, source);
      assert Exec(w, [SeeCancel, Sent, Dropped], source) == Exec(r, [Sent, Dropped], source) by {
        assert [SeeCancel, Sent, Dropped][1..] == [Sent, Dropped];
      }
      assert Tail(fate)[1..] == [SeeCancel, Sent, Dropped];
    }
  }

  lemma {:induction false} SumGrows(sizes: seq<nat>, j: nat)
    requires j < |sizes|
    ensures Sum(sizes[..j + 1]) == Sum(sizes[..j]) + sizes[j] <= Sum(sizes)
    decreases |sizes|
  {
    assert sizes[..j + 1][..j] == sizes[..j];
    if j + 1 < |sizes| {
      var front := sizes[..|sizes| - 1];
      SumGrows(front, j);
      assert front[..j + 1] == sizes[..j + 1] && front[..j] == sizes[..j];
    } else {
      assert sizes[..j + 1] == sizes;
    }
  }

  /** `write_all` of `buf[..n]`: piece after piece until everything is taken or the pieces
      run out. */
  method WriteAll(buf: array<byte>, n: nat, sizes: seq<nat>) returns (taken: Bytes)
    requires n <= buf.Length && Sum(sizes) <= n
    ensures taken == buf[..Sum(sizes)]
  {
    taken := [];
    var j := 0;
    while j < |sizes|
      invariant 0 <= j <= |sizes|
      invariant Sum(sizes[..j]) <= n && taken == buf[..Sum(sizes[..j])]
    {
      SumGrows(sizes, j);
      taken := taken + buf[|taken|..|taken| + sizes[j]];
      j := j + 1;
    }
    assert sizes[..j] == sizes;
  }

  /** `read` into the buffer, then `write_all` of the part just filled. */
  method CopyChunk(buf: array<byte>, source: Bytes, read: Bytes, written: Bytes, n: nat, sizes: seq<nat>)
    returns (read': Bytes, written': Bytes)
    requires n <= buf.Length && |read| + n <= |source| && Sum(sizes) <= n
    modifies buf
    ensures read' == read + source[|read|..|read| + n]
    ensures written' == written + source[|read|..|read| + Sum(sizes)]
  {
    forall k | 0 <= k < n {
      buf[k] := source[|read| + k];
    }
    assert buf[..n] == source[|read|..|read| + n];
    var taken := WriteAll(buf, n, sizes);
    return read + buf[..n], written + taken;
  }

  /** One pass of the loop; `t` carries the function's local variables. */
  method OnePass(buf: array<byte>, source: Bytes, t: Task, p: Pass) returns (t': Task)
    requires buf.Length == BUF_SIZE && t.pc == ReadCheck && |t.read| <= |source| && Possible(p, |t.read|, source)
    modifies buf
    ensures t' == AfterPass(t, p, source)
  {
    match p {
      case CancelSeen =>
        t' := t.(pc := Done);
      case EndOfStream =>
        t' := t.(pc := Done, sawEof := true, shut := true);
      case ReadFailed =>
        t' := t.(pc := Done, end := Err, shut := true);
      case Chunk(n, sizes, fate) =>
        t' := OneChunk(buf, source, t, n, sizes, fate);
    }
  }

  /** The pass that read something. */
  method OneChunk(buf: array<byte>, source: Bytes, t: Task, n: nat, sizes: seq<nat>, fate: Fate) returns (t': Task)
    requires buf.Length == BUF_SIZE && t.pc == ReadCheck && |t.read| <= |source|
    requires Possible(Chunk(n, sizes, fate), |t.read|, source)
    modifies buf
    ensures t' == AfterPass(t, Chunk(n, sizes, fate), source)
  {
    var total, counter, end, done := t.total, t.counter, t.end, false;
    var read, written := CopyChunk(buf, source, t.read, t.written, n, sizes);
    if fate == Complete {
      total := total + n;
      counter := counter + n;
    } else {
      end := if fate == Failed then Err else end;
      done := true;
    }
    return t.(pc := if done then Done else ReadCheck, read := read, written := written,
              total := total, counter := counter, end := end);
  }

  /** `copy_dir` itself: what it has done after the given passes is exactly what the atomic
      actions lead to, so everything proved of them holds of the loop. */
  method CopyDir(source: Bytes, passes: seq<Pass>) returns (t: Task)
    requires Feasible(passes, 0, 0, source)
    ensures Exec(START, Script(passes, |passes|), source) == Some(t)
    ensures TaskInv(t, source, true)
  {
    var buf := new byte[BUF_SIZE](_ => 0);
    t := START;
    var i := 0;
    while i < |passes| && t.pc != Done
      invariant 0 <= i <= |passes|
      invariant t.pc == Done ==> i == |passes|
      invariant t.pc != Done ==> AtTop(t, passes, i, source)
      invariant Exec(START, Script(passes, i), source) == Some(t)
    {
      NextFeasible(t, passes, i, source);
      ScriptGrows(passes, i, t, source);
      t := OnePass(buf, source, t, passes[i]);
      i := i + 1;
    }
    ReachedInv(Script(passes, i), t, source);
  }

  predicate AtTop(t: Task, passes: seq<Pass>, i: nat, source: Bytes)
    requires i <= |passes|
  {
    t.pc == ReadCheck && |t.read| <= |source| && Feasible(passes, i, |t.read|, source)
  }

  lemma NextFeasible(t: Task, passes: seq<Pass>, i: nat, source: Bytes)
    requires i < |passes| && AtTop(t, passes, i, source)
    ensures Possible(passes[i], |t.read|, source)
    ensures var t' := AfterPass(t, passes[i], source);
            if t'.pc == Done then i + 1 == |passes| else AtTop(t', passes, i + 1, source)
  {}

  lemma ScriptGrows(passes: seq<Pass>, i: nat, t: Task, source: Bytes)
    requires i < |passes| && Exec(START, Script(passes, i), source) == Some(t)
    requires t.pc == ReadCheck && |t.read| <= |source| && Possible(passes[i], |t.read|, source)
    ensures Exec(START, Script(passes, i + 1), source) == Some(AfterPass(t, passes[i], source))
  {
    PassLeads(t, passes[i], source);
    ExecJoin(START, Script(passes, i), t, Actions(passes[i]), source);
  }

  lemma ReachedInv(es: seq<Action>, t: Task, source: Bytes)
    requires Exec(START, es, source) == Some(t)
    ensures TaskInv(t, source, true)
  {
    InvStart(source, true);
    ExecKeepsInv(START, es, source);
  }
}
