/** UDPSocket::send with its three compile-time back ends, and the write-event queue. */
module Udp {
  import opened Common
  import opened Datagrams
  import opened Gso

  const EINTR: int := 4
  const EBADF: int := 9
  const EAGAIN: int := 11  // the same value as EWOULDBLOCK

  /** io_result for errno values. */
  datatype IoResult = IoResult(code: int) {
    predicate Failure() { code != 0 }
    predicate Blocked() { code == EAGAIN }
  }

  datatype Backend = SendmsgLoop | Sendmmsg | SendmmsgGso {
    /** MAX_BATCH: only the sendmmsg builds batch at all. */
    function MaxBatch(): (r: nat)
      ensures 1 <= r <= BATCH_SIZE
    {
      if SendmsgLoop? then 1 else BATCH_SIZE
    }
  }

  type Errno = e: int | e != 0 && e != EINTR witness EAGAIN

  /**
   * The kernel's answer to one batch: it takes the first `accept` datagrams on offer and refuses the next one with
   * `errno`; `interrupts` counts the EINTR returns along the way.
   */
  datatype KernelReply = KernelReply(interrupts: nat, accept: nat, errno: Errno)

  function SentOf(n: nat, reply: KernelReply): nat { Min(reply.accept, n) }

  /**
   * The error code that goes with it. The sendmsg loop reports the refusal (and treats an interrupt as one);
   * sendmmsg retries interrupts, and hides a refusal behind a short count unless nothing at all was taken.
   */
  function CodeOf(backend: Backend, n: nat, reply: KernelReply): int {
    match backend
    case SendmsgLoop => if reply.accept >= n then 0 else if reply.interrupts > 0 then EINTR else reply.errno
    case _ => if reply.accept == 0 then reply.errno else 0
  }

  /** The msg_len fields sendmmsg fills in when it takes the first `accept` datagrams of the messages. */
  function KernelLens(ms: seq<Msg>, accept: nat): (r: seq<nat>)
    ensures |r| == |ms|
  {
    if ms == [] then []
    else
      var ds := OnWire(ms[0]);
      if accept >= |ds| then [|ms[0].data|] + KernelLens(ms[1..], accept - |ds|)
      else [|Concat(ds[..accept])|] + Repeat(0, |ms| - 1)
  }

  lemma {:induction false} KernelLensFirst(data: seq<byte>, g: Group, accept: nat)
    requires g.size >= 1 && g.count >= 1 && |data| == GroupBytes(g)
    ensures var ds := OnWire(Msg(data, if g.count > 1 then g.size else 0));
      |ds| == g.count && (accept < g.count ==> |Concat(ds[..accept])| == g.size * accept < |data|)
  {
    var ds := OnWire(Msg(data, if g.count > 1 then g.size else 0));
    GroupOnWire(data, g);
    if accept < g.count {
      PackedOfSplit(data, Repeat(g.size, g.count));
      assert Lengths(ds[..accept]) == Repeat(g.size, accept);
      ConcatLength(ds[..accept]);
      SumRepeat(g.size, accept);
      MulMono(g.size, accept + 1, g.count);
      assert g.size * (accept + 1) == g.size * accept + g.size;
    }
  }

  /** The kernel's answers are whole-packet prefixes, and the count derived from them is what the kernel took. */
  lemma {:induction false} KernelLensWhole(buf: seq<byte>, gs: seq<Group>, accept: nat)
    requires MaximalRuns(gs) && Total(gs) <= |buf|
    ensures WholePrefix(gs, KernelLens(MsgsOf(buf, gs), accept))
    ensures SentCount(gs, KernelLens(MsgsOf(buf, gs), accept)) == Min(accept, |Expand(gs)|)
  {
    if gs != [] {
      hide KernelLens, MsgsOf, OnWire, Concat, GroupBytes, Total, MaximalRuns, Expand, SentCount, WholePrefix;
      var ms := MsgsOf(buf, gs);
      KernelLensCons(buf, gs, accept);
      MsgsCons(buf, gs);
      MaximalTail(gs);
      if accept >= gs[0].count {
        KernelLensWhole(buf[GroupBytes(gs[0])..], gs[1..], accept - gs[0].count);
        FullLens(gs, KernelLens(ms, accept), KernelLens(ms[1..], accept - gs[0].count));
      } else {
        ShortLens(gs, KernelLens(ms, accept), accept);
      }
    }
  }

  lemma {:induction false} FullLens(gs: seq<Group>, lens: seq<nat>, rest: seq<nat>)
    requires gs != [] && MaximalRuns(gs) && WholePrefix(gs[1..], rest) && lens == [GroupBytes(gs[0])] + rest
    ensures WholePrefix(gs, lens) && SentCount(gs, lens) == gs[0].count + SentCount(gs[1..], rest)
  {
    hide MaximalRuns, WholePrefix, SentCount;
    MaximalTail(gs);
    assert lens[1..] == rest;
    WholePrefixLength(gs[1..], rest);
    WholePrefixCons(gs, lens);
    FirstCountIs(gs, lens, gs[0].count);
  }

  lemma {:induction false} WholePrefixLength(gs: seq<Group>, lens: seq<nat>)
    requires WholePrefix(gs, lens)
    ensures |lens| == |gs|
  {
  }

  lemma {:induction false} ShortLens(gs: seq<Group>, lens: seq<nat>, q: nat)
    requires gs != [] && MaximalRuns(gs) && q < gs[0].count && lens == [gs[0].size * q] + Repeat(0, |gs| - 1)
    requires gs[0].size * q < GroupBytes(gs[0])
    ensures WholePrefix(gs, lens) && SentCount(gs, lens) == q
  {
    hide SentCount;
    assert lens[1..] == Repeat(0, |gs| - 1);
    ModMul(gs[0].size, q);
    forall j | 0 < j < |gs| ensures lens[j] == 0 && lens[j] % gs[j].size == 0 {
      assert lens[j] == lens[1..][j - 1];
    }
    NothingSentTail(gs, lens);
    FirstCountIs(gs, lens, q);
  }

  lemma {:induction false} MaximalTail(gs: seq<Group>)
    requires gs != [] && MaximalRuns(gs)
    ensures MaximalRuns(gs[1..]) && gs[0].size >= 1 && gs[0].count >= 1
    ensures |Expand(gs)| == gs[0].count + |Expand(gs[1..])|
  {
  }

  lemma {:induction false} NothingSentTail(gs: seq<Group>, lens: seq<nat>)
    requires gs != [] && MaximalRuns(gs) && |gs| == |lens| && lens[1..] == Repeat(0, |gs| - 1)
    ensures SentCount(gs[1..], lens[1..]) == 0
  {
    NothingSent(gs[1..], lens[1..], seq(|gs| - 1, _ => Msg([], 0)));
  }

  lemma {:induction false} FirstCountIs(gs: seq<Group>, lens: seq<nat>, q: nat)
    requires gs != [] && WholePrefix(gs, lens) && lens[0] == gs[0].size * q && q <= gs[0].count
    ensures SentCount(gs, lens) == q + SentCount(gs[1..], lens[1..])
  {
    ModMul(gs[0].size, q);
    var k := FirstCount(gs, lens);
    ModMul(gs[0].size, k);
  }

  lemma {:induction false} KernelLensCons(buf: seq<byte>, gs: seq<Group>, accept: nat)
    requires gs != [] && MaximalRuns(gs) && Total(gs) <= |buf|
    ensures var g, ms := gs[0], MsgsOf(buf, gs);
      && GroupBytes(g) == g.size * g.count
      && (accept < g.count ==> g.size * accept < GroupBytes(g))
      && KernelLens(ms, accept) == if accept >= g.count then [GroupBytes(g)] + KernelLens(ms[1..], accept - g.count)
                                   else [g.size * accept] + Repeat(0, |gs| - 1)
  {
    KernelLensFirst(buf[..GroupBytes(gs[0])], gs[0], accept);
  }

  lemma {:induction false} ModMul(a: nat, b: nat)
    requires a >= 1
    ensures (a * b) % a == 0 && (a * b) / a == b
  {
    var q, r := (a * b) / a, (a * b) % a;
    assert a * b == a * q + r;
    assert a * (b - q) == r;
    MulSign(a, b - q);
    MulSign(a, q - b);
  }

  lemma {:induction false} MulSign(a: nat, d: int)
    ensures d >= 1 ==> a * d >= a
    ensures a * -d == -(a * d)
  {
    if d >= 1 {
      MulGe(a, d);
    }
  }

  lemma {:induction false} WholePrefixCons(gs: seq<Group>, lens: seq<nat>)
    requires gs != [] && |lens| == |gs| && WholePrefix(gs[1..], lens[1..])
    requires gs[0].size >= 1 && lens[0] == GroupBytes(gs[0])
    ensures WholePrefix(gs, lens)
  {
    ModMul(gs[0].size, gs[0].count);
    hide GroupBytes;
    forall j | 0 <= j < |gs|
      ensures gs[j].size >= 1 && lens[j] <= GroupBytes(gs[j]) && lens[j] % gs[j].size == 0
    {
      if j > 0 {
        assert gs[1..][j - 1] == gs[j] && lens[1..][j - 1] == lens[j];
      }
    }
    forall i, j | 0 <= i < j < |gs| && lens[i] < GroupBytes(gs[i]) ensures lens[j] == 0 {
      assert gs[1..][i - 1] == gs[i] && lens[1..][i - 1] == lens[i] && lens[1..][j - 1] == lens[j];
    }
  }

  // ---- the GSO arrays -----------------------------------------------------------------------

  datatype IoVec = IoVec(base: nat, len: nat)

  /**
   * The stack arrays of the GSO back end, each BATCH_SIZE long; `control[j]` is the index of message j's control
   * block in `controls`, or -1.
   */
  datatype GsoArrays = GsoArrays(sizes: seq<nat>, counts: seq<nat>, iovs: seq<IoVec>, controls: seq<nat>, control: seq<int>) {
    predicate Shape() {
      |sizes| == |counts| == |iovs| == |controls| == |control| == BATCH_SIZE
    }

    ghost predicate Holds(gs: seq<Group>)
      requires Shape() && |gs| <= BATCH_SIZE
    {
      && (forall j :: 0 <= j < |gs| ==> sizes[j] == gs[j].size && counts[j] == gs[j].count)
      // the vectors tile the buffer
      && iovs[..|gs|] == Vectors(gs, 0)
      // every multi-packet group has a control block of its own, inside the array, holding its segment size
      && (forall j :: 0 <= j < |gs| && gs[j].count > 1 ==>
            control[j] == j + 1 < BATCH_SIZE && controls[j + 1] == gs[j].size)
      && (forall j :: 0 <= j < |gs| && gs[j].count <= 1 ==> control[j] == -1)
    }
  }

  /** Back-to-back vectors, one per group. */
  function Vectors(gs: seq<Group>, base: nat): (r: seq<IoVec>)
    ensures |r| == |gs|
  {
    if gs == [] then [] else [IoVec(base, GroupBytes(gs[0]))] + Vectors(gs[1..], base + GroupBytes(gs[0]))
  }

  lemma {:induction false} VectorsSnoc(gs: seq<Group>, g: Group, base: nat)
    ensures Vectors(gs + [g], base) == Vectors(gs, base) + [IoVec(base + Total(gs), GroupBytes(g))]
  {
    if gs == [] {
      assert (gs + [g])[1..] == [];
    } else {
      var len, first := GroupBytes(gs[0]), [IoVec(base, GroupBytes(gs[0]))];
      calc {
        Vectors(gs + [g], base);
        { assert (gs + [g])[1..] == gs[1..] + [g]; }
        first + Vectors(gs[1..] + [g], base + len);
        { VectorsSnoc(gs[1..], g, base + len); }
        first + (Vectors(gs[1..], base + len) + [IoVec(base + Total(gs), GroupBytes(g))]);
        Vectors(gs, base) + [IoVec(base + Total(gs), GroupBytes(g))];
      }
    }
  }

  /** The header of message j as sendmmsg reads it, through the control pointer if there is one. */
  function Header(buf: seq<byte>, a: GsoArrays, j: nat): Msg
    requires a.Shape() && j < BATCH_SIZE && a.iovs[j].base + a.iovs[j].len <= |buf| && -1 <= a.control[j] < BATCH_SIZE
  {
    Msg(buf[a.iovs[j].base..a.iovs[j].base + a.iovs[j].len], if a.control[j] < 0 then 0 else a.controls[a.control[j]])
  }

  lemma {:induction false} VectorsCons(gs: seq<Group>, base: nat)
    requires gs != []
    ensures Vectors(gs, base)[0] == IoVec(base, GroupBytes(gs[0]))
    ensures Vectors(gs, base)[1..] == Vectors(gs[1..], base + GroupBytes(gs[0]))
  {
  }

  lemma {:induction false} MsgsCons(buf: seq<byte>, gs: seq<Group>)
    requires gs != [] && Total(gs) <= |buf|
    ensures GroupBytes(gs[0]) + Total(gs[1..]) == Total(gs)
    ensures MsgsOf(buf, gs)[0] == Msg(buf[..GroupBytes(gs[0])], if gs[0].count > 1 then gs[0].size else 0)
    ensures MsgsOf(buf, gs)[1..] == MsgsOf(buf[GroupBytes(gs[0])..], gs[1..])
  {
  }

  lemma {:induction false} VectorAt(buf: seq<byte>, gs: seq<Group>, base: nat, j: nat)
    requires base + Total(gs) <= |buf| && j < |gs|
    ensures var v := Vectors(gs, base)[j];
      v.base + v.len <= |buf| && MsgsOf(buf[base..], gs)[j].data == buf[v.base..v.base + v.len]
    ensures MsgsOf(buf[base..], gs)[j].segment == if gs[j].count > 1 then gs[j].size else 0
  {
    VectorsCons(gs, base);
    MsgsCons(buf[base..], gs);
    hide Vectors, MsgsOf, Total, GroupBytes;
    if j > 0 {
      var len := GroupBytes(gs[0]);
      VectorAt(buf, gs[1..], base + len, j - 1);
      assert buf[base..][len..] == buf[base + len..];
      assert Vectors(gs, base)[j] == Vectors(gs, base)[1..][j - 1];
      assert MsgsOf(buf[base..], gs)[j] == MsgsOf(buf[base..], gs)[1..][j - 1];
    }
  }

  /** The headers in the arrays are the ones the grouping denotes. */
  lemma {:induction false} HeadersDenote(buf: seq<byte>, a: GsoArrays, gs: seq<Group>, j: nat)
    requires a.Shape() && |gs| <= BATCH_SIZE && a.Holds(gs) && Total(gs) <= |buf| && j < |gs|
    ensures a.iovs[j].base + a.iovs[j].len <= |buf| && -1 <= a.control[j] < BATCH_SIZE
    ensures Header(buf, a, j) == MsgsOf(buf, gs)[j]
  {
    VectorAt(buf, gs, 0, j);
    assert buf[0..] == buf;
    assert a.iovs[j] == a.iovs[..|gs|][j];
  }

  /** The state between two iterations: closed groups `gs`, and an open one of `open` packets of size `size`. */
  ghost predicate Grouping(sizes: seq<nat>, i: nat, gs: seq<Group>, size: nat, open: nat) {
    && i <= |sizes| && MaximalRuns(gs)
    && sizes[..i] == Expand(gs) + Repeat(size, open)
    && (open > 0 ==> i < |sizes| && sizes[i] == size && size >= 1)
    && (gs != [] && i < |sizes| ==> gs[|gs| - 1].size != sizes[i])
  }

  lemma {:induction false} GroupingLength(sizes: seq<nat>, i: nat, gs: seq<Group>, size: nat, open: nat)
    requires Grouping(sizes, i, gs, size, open)
    ensures |gs| + open <= i
    ensures (exists j :: 0 <= j < |gs| && gs[j].count > 1) ==> |gs| + open < i
  {
    ExpandLength(gs);
    assert |sizes[..i]| == |Expand(gs)| + open;
  }

  lemma {:induction false} TotalSnoc(gs: seq<Group>, g: Group)
    ensures Total(gs + [g]) == Total(gs) + GroupBytes(g)
  {
    if gs == [] {
      assert (gs + [g])[1..] == [];
    } else {
      TotalSnoc(gs[1..], g);
      assert (gs + [g])[1..] == gs[1..] + [g];
    }
  }

  /** Packet i joins the open group; when the next packet differs (or there is none) the group is closed. */
  lemma {:induction false} GroupingStep(sizes: seq<nat>, i: nat, gs: seq<Group>, size: nat, open: nat)
    requires Grouping(sizes, i, gs, size, open) && i < |sizes| && sizes[i] >= 1
    ensures i + 1 < |sizes| && sizes[i + 1] == sizes[i] ==> Grouping(sizes, i + 1, gs, sizes[i], open + 1)
    ensures !(i + 1 < |sizes| && sizes[i + 1] == sizes[i]) ==>
              Grouping(sizes, i + 1, gs + [Group(sizes[i], open + 1)], 0, 0)
  {
    var g := Group(sizes[i], open + 1);
    assert Repeat(size, open) + [sizes[i]] == Repeat(sizes[i], open + 1);
    assert sizes[..i + 1] == sizes[..i] + [sizes[i]] == Expand(gs) + Repeat(sizes[i], open + 1);
    ExpandSnoc(gs, g);
    assert Repeat(0, 0) == [];
    assert Expand(gs + [g]) + Repeat(0, 0) == Expand(gs + [g]);
  }

  /** The loop invariant over the arrays: `gs` is closed, slot |gs| holds the open group, the rest is still zero. */
  ghost predicate Progress(a: GsoArrays, gs: seq<Group>, size: nat, open: nat) {
    && a.Shape() && |gs| <= BATCH_SIZE && a.Holds(gs)
    && (open == 0 ==> size == 0)
    && (|gs| < BATCH_SIZE ==> a.sizes[|gs|] == size && a.counts[|gs|] == open)
    && (forall j :: |gs| < j < BATCH_SIZE ==> a.sizes[j] == 0 && a.counts[j] == 0)
    && (forall j :: |gs| <= j < BATCH_SIZE ==> a.control[j] == -1)
  }

  /** Counts one packet into the open group, starting it if need be. */
  method CountPacket(a: GsoArrays, m: nat, packetSize: nat, ghost gs: seq<Group>, ghost size: nat, ghost open: nat)
    returns (r: GsoArrays)
    requires m == |gs| < BATCH_SIZE && Progress(a, gs, size, open) && packetSize >= 1
    requires open > 0 ==> size == packetSize
    ensures Progress(r, gs, packetSize, open + 1)
    ensures r.Shape() && r.sizes[m] == packetSize && r.counts[m] == open + 1
  {
    r := a.(counts := a.counts[m := a.counts[m] + 1]);
    if r.sizes[m] == 0 {
      r := r.(sizes := r.sizes[m := packetSize]);
    }
  }

  /** Fills in the message header of the group that ends here. */
  method CloseGroup(a: GsoArrays, m: nat, nextBuf: nat, ghost gs: seq<Group>) returns (r: GsoArrays)
    requires m == |gs| < BATCH_SIZE && a.Shape() && Progress(a, gs, a.sizes[m], a.counts[m]) && nextBuf == Total(gs)
    requires a.counts[m] > 1 ==> m + 1 < BATCH_SIZE
    ensures Progress(r, gs + [Group(a.sizes[m], a.counts[m])], 0, 0)
    ensures r.Shape() && r.iovs[m].len == GroupBytes(Group(a.sizes[m], a.counts[m]))
  {
    r := a.(iovs := a.iovs[m := IoVec(nextBuf, a.counts[m] * a.sizes[m])]);
    if r.counts[m] > 1 {
      r := r.(controls := r.controls[m + 1 := r.sizes[m]], control := r.control[m := m + 1]);
    }
    VectorsSnoc(gs, Group(a.sizes[m], a.counts[m]), 0);
    assert r.iovs[..m + 1] == a.iovs[..m] + [r.iovs[m]];
  }

  /** One iteration of the grouping loop. */
  method AddPacket(bufsize: seq<nat>, i: nat, a: GsoArrays, m: nat, nextBuf: nat,
                   ghost gs: seq<Group>, ghost size: nat, ghost open: nat)
    returns (a': GsoArrays, m': nat, nextBuf': nat, ghost gs': seq<Group>, ghost size': nat, ghost open': nat)
    requires i < |bufsize| <= BATCH_SIZE && bufsize[i] >= 1 && m == |gs| && nextBuf == Total(gs)
    requires Grouping(bufsize, i, gs, size, open) && Progress(a, gs, size, open)
    ensures m' == |gs'| && nextBuf' == Total(gs')
    ensures Grouping(bufsize, i + 1, gs', size', open') && Progress(a', gs', size', open')
  {
    hide Progress, Grouping, Total, GroupBytes;
    PacketStep(bufsize, i, gs, size, open);
    a' := CountPacket(a, m, bufsize[i], gs, size, open);
    m', nextBuf' := m, nextBuf;
    gs', size', open' := gs, bufsize[i], open + 1;
    if i == |bufsize| - 1 || bufsize[i + 1] != a'.sizes[m] {  // the next one cannot be batched with us
      a' := CloseGroup(a', m, nextBuf, gs);
      nextBuf' := nextBuf + a'.iovs[m].len;
      gs', size', open' := gs + [Group(bufsize[i], open + 1)], 0, 0;
      m' := m + 1;
    }
  }

  /** The grouping loop: contiguous runs of equal size that tile the buffer, and control blocks that never collide. */
  method BuildGroups(bufsize: seq<nat>) returns (a: GsoArrays, msgCount: nat, ghost gs: seq<Group>)
    requires |bufsize| <= BATCH_SIZE
    requires forall i :: 0 <= i < |bufsize| ==> 0 < bufsize[i] <= 0xFFFF  // the size fields are 16 bits wide
    ensures a.Shape() && msgCount == |gs| <= |bufsize|
    ensures MaximalRuns(gs) && Expand(gs) == bufsize && a.Holds(gs)
  {
    hide Progress, Grouping, MaximalRuns, Expand, Total, Zeroed;
    var nextBuf := 0;
    a, msgCount, gs := Zeroed(), 0, [];
    ghost var size, open := 0, 0;
    GroupingStarts(bufsize);
    EmptyTotal();
    for i := 0 to |bufsize|
      invariant msgCount == |gs| && nextBuf == Total(gs)
      invariant Grouping(bufsize, i, gs, size, open)
      invariant Progress(a, gs, size, open)
    {
      a, msgCount, nextBuf, gs, size, open := AddPacket(bufsize, i, a, msgCount, nextBuf, gs, size, open);
    }
    GroupingDone(bufsize, gs, size, open);
    ProgressShape(a, gs, size, open);
  }

  lemma {:induction false} EmptyTotal()
    ensures Total([]) == 0
  {
  }

  lemma {:induction false} ProgressShape(a: GsoArrays, gs: seq<Group>, size: nat, open: nat)
    requires Progress(a, gs, size, open)
    ensures a.Shape() && |gs| <= BATCH_SIZE && a.Holds(gs)
  {
  }

  function Zeroed(): (a: GsoArrays)
    ensures Progress(a, [], 0, 0)
  {
    GsoArrays(Repeat(0, BATCH_SIZE), Repeat(0, BATCH_SIZE), seq(BATCH_SIZE, _ => IoVec(0, 0)),
              Repeat(0, BATCH_SIZE), seq(BATCH_SIZE, _ => -1))
  }

  lemma {:induction false} GroupingStarts(sizes: seq<nat>)
    ensures Grouping(sizes, 0, [], 0, 0)
  {
  }

  lemma {:induction false} GroupingDone(sizes: seq<nat>, gs: seq<Group>, size: nat, open: nat)
    requires Grouping(sizes, |sizes|, gs, size, open)
    ensures MaximalRuns(gs) && Expand(gs) == sizes && |gs| <= |sizes|
  {
    assert sizes[..|sizes|] == sizes;
    ExpandLength(gs);
  }

  lemma {:induction false} ClosedLength(sizes: seq<nat>, i: nat, gs: seq<Group>, g: Group)
    requires Grouping(sizes, i + 1, gs + [g], 0, 0)
    ensures |gs| + 1 <= i + 1 && (g.count > 1 ==> |gs| + 1 < i + 1)
  {
    GroupingLength(sizes, i + 1, gs + [g], 0, 0);
    assert (gs + [g])[|gs|] == g;
  }

  /** Everything one iteration needs to know. */
  lemma {:induction false} PacketStep(sizes: seq<nat>, i: nat, gs: seq<Group>, size: nat, open: nat)
    requires Grouping(sizes, i, gs, size, open) && i < |sizes| && sizes[i] >= 1
    ensures |gs| <= i && (open > 0 ==> size == sizes[i])
    ensures i + 1 < |sizes| && sizes[i + 1] == sizes[i] ==> Grouping(sizes, i + 1, gs, sizes[i], open + 1)
    ensures var g := Group(sizes[i], open + 1);
      && Total(gs + [g]) == Total(gs) + GroupBytes(g)
      && (!(i + 1 < |sizes| && sizes[i + 1] == sizes[i]) ==>
            Grouping(sizes, i + 1, gs + [g], 0, 0) && (g.count > 1 ==> |gs| < i))
  {
    var g := Group(sizes[i], open + 1);
    GroupingLength(sizes, i, gs, size, open);
    GroupingStep(sizes, i, gs, size, open);
    TotalSnoc(gs, g);
    if !(i + 1 < |sizes| && sizes[i + 1] == sizes[i]) {
      ClosedLength(sizes, i, gs, g);
    }
  }
}
